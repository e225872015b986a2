/** Read gating, room in the rings, and when a relay can stall itself
    (src/net/relay.c:13-20, 137-157, 191-294). */
module RelayProgress {
  import opened Bytes
  import opened Rings
  import opened Records
  import opened RelaySpec
  import opened RelaySafety

  // ----- no append is ever cut short -----

  /** With reads gated by ct_relay_events, the record made of a full chunk is stored
      whole in to_work, and a full read is stored whole in work_input, at the point in
      ct_relay_process where they are appended. */
  lemma GatedAppendsFit(r: State, fd: Fd, ev: Ready, io: Io, log: seq<Sealed>)
    requires Sized(r) && Plausible(r, fd, io)
    requires WantsRead(r, fd) && io.recv.Data? && Stage1(r, fd, ev, io).ok
    requires Stage2(Stage1(r, fd, ev, io).st, fd, log).ok
    ensures var q := Stage2(Stage1(r, fd, ev, io).st, fd, log).st;
      && (fd == Direct && r.tx.seqno < U64_MAX ==>
            var record := Header(|io.box|, r.tx.seqno + 1) + io.box;
            Stage3(q, fd, Ready(true, ev.write), io, log).st.tx.ring == r.tx.ring + record)
      && (fd == Work ==>
            Appended(q.rx.input, io.recv.bytes, r.cap) == r.rx.input + io.recv.bytes)
  {
    var q := Stage2(Stage1(r, fd, ev, io).st, fd, log).st;
    match fd
    case Direct =>
      if r.tx.seqno < U64_MAX {
        AppendedWhole(r.tx.ring, Header(|io.box|, r.tx.seqno + 1) + io.box, r.cap);
      }
    case Work =>
      AppendedWhole(q.rx.input, io.recv.bytes, r.cap);
  }

  /** The gates are no tighter than they need to be: direct is read exactly while the record of
      a full chunk would leave more than 4 bytes free, and work exactly while a full read
      would leave some. */
  lemma GatesAreTight(r: State)
    requires !r.closed
    ensures !r.tx.eof ==>
      (WantsRead(r, Direct) <==> |r.tx.ring| + (HEADER + Chunk(r.cap) + TAG) + 4 < r.cap)
    ensures !r.rx.eof ==>
      (WantsRead(r, Work) <==> |r.rx.input| + (Chunk(r.cap) + 32) < r.cap)
  {
  }

  /** Each plaintext fits to_direct: decrypt_ready never reaches its failed append. */
  lemma PlaintextFits(x: Rx, cap: nat, log: seq<Sealed>, chunk: nat)
    requires InSequence(log, chunk) && RxSized(x, cap)
    requires |x.input| >= HEADER
    requires DecodeHeader(x.input[..HEADER], Chunk(cap), x.seqno).Some?
    ensures var n := DecodeHeader(x.input[..HEADER], Chunk(cap), x.seqno).value.0;
      HEADER + n <= |x.input| && n - TAG <= cap - |x.ring| ==>
        var p := Open(log, x.seqno + 1, x.input[..HEADER], x.input[HEADER..HEADER + n]);
        p.Some? ==> |x.ring| + |p.value| <= cap
  {
    var n := DecodeHeader(x.input[..HEADER], Chunk(cap), x.seqno).value.0;
    if HEADER + n <= |x.input| && n - TAG <= cap - |x.ring| {
      var h, box := x.input[..HEADER], x.input[HEADER..HEADER + n];
      if Open(log, x.seqno + 1, h, box).Some? { OpenedIsNext(log, chunk, x.seqno, h, box); }
    }
  }

  /** Serving one socket never closes the read gate of the other. */
  lemma GateStaysOpen(r: State, fd: Fd, ev: Ready, io: Io, log: seq<Sealed>)
    requires Sized(r) && Plausible(r, fd, io)
    ensures var other := if fd == Direct then Work else Direct;
      var o := After(r, fd, ev, io, log);
      WantsRead(r, other) && !o.closed ==> WantsRead(o, other)
  {
    match fd
    case Work => TxOfAdvance(r, fd, ev, io, log);
    case Direct => RxOfDirect(r, ev, io, log);
  }

  /** At the direct socket the receiving half sends, then decrypts. */
  lemma RxOfDirect(r: State, ev: Ready, io: Io, log: seq<Sealed>)
    requires Sized(r) && Plausible(r, Direct, io)
    ensures var x := Advance(r, Direct, ev, io, log).st.rx;
      x.eof == r.rx.eof && |x.input| <= |r.rx.input|
  {
    RxOfAdvance(r, Direct, ev, io, log);
    DecryptShrinks(if ev.write then FlushRx(r.rx, io.send).rx else r.rx, r.cap, log);
  }

  lemma {:induction false} DecryptShrinks(x: Rx, cap: nat, log: seq<Sealed>)
    requires RxSized(x, cap)
    ensures |Decrypt(x, cap, log).rx.input| <= |x.input|
    decreases |x.input|
  {
    var t := DecryptOne(x, cap, log);
    if t.Next? { DecryptShrinks(t.rx, cap, log); }
  }

  // ----- the head of work_input after every call -----

  /** The head record of work_input is incomplete, or to_direct lacks room for it. */
  predicate Drained(x: Rx, cap: nat)
  {
    |x.input| < HEADER ||
    var n := GetU32(x.input[..4]);
    TAG <= n <= Chunk(cap) + TAG && (|x.input| < HEADER + n || cap - |x.ring| < n - TAG)
  }

  lemma {:induction false} DecryptDrains(x: Rx, cap: nat, log: seq<Sealed>)
    requires RxSized(x, cap)
    ensures Decrypt(x, cap, log).ok ==> Drained(Decrypt(x, cap, log).rx, cap)
    decreases |x.input|
  {
    var t := DecryptOne(x, cap, log);
    if t.Next? { DecryptDrains(t.rx, cap, log); }
    else if t.Wait? && |x.input| >= HEADER { assert x.input[..HEADER][..4] == x.input[..4]; }
  }

  lemma AdvanceDrains(r: State, fd: Fd, ev: Ready, io: Io, log: seq<Sealed>)
    requires Sized(r) && Plausible(r, fd, io) && Drained(r.rx, r.cap)
    ensures var o := Advance(r, fd, ev, io, log); o.ok ==> Drained(o.st.rx, r.cap)
  {
    var f := Stage1(r, fd, ev, io).st;
    match fd
    case Direct => DecryptDrains(f.rx, r.cap, log);
    case Work =>
      if ev.read && io.recv.Data? {
        var y := r.rx.(taken := r.rx.taken + io.recv.bytes,
                       input := Appended(r.rx.input, io.recv.bytes, r.cap));
        DecryptDrains(y, r.cap, log);
      }
  }

  /** After every successful ct_relay_process the head record is incomplete or lacks
      room: the drain at the top of the call and the one in read_work suffice. */
  lemma AfterDrained(r: State, fd: Fd, ev: Ready, io: Io, log: seq<Sealed>)
    requires Sized(r) && Plausible(r, fd, io)
    requires !r.closed ==> Drained(r.rx, r.cap)
    ensures var o := After(r, fd, ev, io, log); !o.closed ==> Drained(o.rx, o.cap)
  {
    if !r.closed { AdvanceDrains(r, fd, ev, io, log); }
  }

  // ----- no stall -----

  /** A read that is switched off although the socket is not at end of file. */
  predicate GatedOff(r: State, fd: Fd)
  {
    !r.closed && !WantsRead(r, fd) && !(if fd == Direct then r.tx.eof else r.rx.eof)
  }

  /** No read is switched off unless there is something to write on the opposite socket,
      whose departure will switch it on again. */
  predicate NoStall(r: State)
  {
    && (GatedOff(r, Direct) ==> WantsWrite(r, Work))
    && (GatedOff(r, Work) ==> WantsWrite(r, Direct))
  }

  /** Room for a full input record behind a closed gate. */
  predicate Roomy(cap: nat) { cap >= 2 * Chunk(cap) + 60 }

  lemma RoomyValues()
    ensures Roomy(65536) && Roomy(131072) && !Roomy(16384) && !Roomy(32768)
    ensures forall cap: nat :: Roomy(cap) <==> cap >= 32828
  {
  }

  lemma DrainedNeverStalls(r: State)
    requires Sized(r) && Drained(r.rx, r.cap) && Roomy(r.cap)
    ensures NoStall(r)
  {
  }
}

/** What one encrypted relay does, as functions on values (src/net/relay.c).
    The operating system's answers (how much a send took, what a recv returned) and
    the bytes of each AEAD box are arguments. The relay has two independent halves:
    Tx carries bytes from the direct socket to the work connection, Rx carries them
    back. */
module RelaySpec {
  import opened Bytes
  import opened Rings
  import opened Records
  import opened Metrics

  const MIN_CAP: nat := 4096
  const MAX_CAP: nat := 262144

  /** CHUNK, as a function of CONFIG_STREAM_BUFFER_SIZE. */
  function Chunk(cap: nat): nat
  {
    if cap < 32768 then cap / 2 else 16384
  }

  datatype Fd = Direct | Work
  datatype Ready = Ready(read: bool, write: bool)
  datatype SendResult = Sent(n: nat) | SendBlocked | SendFailed
  datatype RecvResult = Data(bytes: seq<byte>) | Eof | RecvBlocked | RecvFailed
  datatype Io = Io(send: SendResult, recv: RecvResult, box: seq<byte>)

  /** direct_eof, send_seq, to_work; then what has been read from the direct socket,
      sent on work, sealed, and whether work has been shut for writing. */
  datatype Tx = Tx(eof: bool, seqno: nat, ring: seq<byte>,
                   taken: seq<byte>, sent: seq<byte>, sealed: seq<Sealed>, shut: bool)

  /** work_eof, recv_seq, work_input, to_direct and the PROXY header countdown; then
      what has been read from work, sent to the direct socket, the header itself, and
      whether direct has been shut for writing. */
  datatype Rx = Rx(eof: bool, seqno: nat, input: seq<byte>, ring: seq<byte>,
                   pending: bool, remaining: nat,
                   taken: seq<byte>, sent: seq<byte>, header: seq<byte>, shut: bool)

  datatype State = State(cap: nat, closed: bool, accounted: nat, tx: Tx, rx: Rx)

  datatype TxOutcome = TxOutcome(ok: bool, tx: Tx)
  datatype RxOutcome = RxOutcome(ok: bool, rx: Rx)
  datatype Outcome = Outcome(ok: bool, st: State)
  datatype Accounted = Accounted(st: State, m: Counters)
  datatype Processed = Processed(rc: int, st: State, m: Counters)

  ghost predicate CapOk(cap: nat) { MIN_CAP <= cap <= MAX_CAP }
  ghost predicate TxSized(t: Tx, cap: nat) { |t.ring| <= cap && t.seqno < U64_LIMIT }
  ghost predicate RxSized(x: Rx, cap: nat)
  {
    |x.input| <= cap && |x.ring| <= cap && x.seqno < U64_LIMIT
  }
  ghost predicate Sized(r: State)
  {
    CapOk(r.cap) && TxSized(r.tx, r.cap) && RxSized(r.rx, r.cap) && r.accounted <= 3 * r.cap
  }

  /** What the operating system and the AEAD promise about their answers. */
  ghost predicate SendFits(send: SendResult, ring: seq<byte>)
  {
    send.Sent? ==> 1 <= send.n <= |ring|
  }
  ghost predicate RecvFits(cap: nat, fd: Fd, io: Io)
  {
    io.recv.Data? ==>
      && 1 <= |io.recv.bytes| <= (if fd == Direct then Chunk(cap) else Chunk(cap) + 32)
      && (fd == Direct ==> |io.box| == |io.recv.bytes| + TAG)
  }
  ghost predicate Plausible(r: State, fd: Fd, io: Io)
  {
    SendFits(io.send, if fd == Direct then r.rx.ring else r.tx.ring) && RecvFits(r.cap, fd, io)
  }

  /** ct_relay_init with `header` already built (empty when no PROXY header is due). */
  function Init(cap: nat, header: seq<byte>): State
  {
    State(cap, false, 0, Tx(false, 0, [], [], [], [], false),
          Rx(false, 0, [], header, header != [], |header|, [], [], header, false))
  }

  // ----- events (ct_relay_events) -----

  predicate WantsRead(r: State, fd: Fd)
  {
    && !r.closed
    && match fd
       case Direct => !r.tx.eof && |r.tx.ring| < r.cap - Chunk(r.cap) - 32
       case Work => !r.rx.eof && |r.rx.input| < r.cap - Chunk(r.cap) - 32
  }

  predicate WantsWrite(r: State, fd: Fd)
  {
    && !r.closed
    && match fd
       case Direct => r.rx.ring != []
       case Work => r.tx.ring != []
  }

  // ----- direct to work -----

  function FlushTx(t: Tx, send: SendResult): TxOutcome
    requires SendFits(send, t.ring)
  {
    if t.ring == [] then TxOutcome(true, t)
    else match send
      case Sent(n) => TxOutcome(true, t.(ring := t.ring[n..], sent := t.sent + t.ring[..n]))
      case SendBlocked => TxOutcome(true, t)
      case SendFailed => TxOutcome(false, t)
  }

  /** encrypt_chunk. */
  function Encrypt(t: Tx, cap: nat, p: seq<byte>, box: seq<byte>): (o: TxOutcome)
    requires CapOk(cap) && TxSized(t, cap)
    requires |box| == |p| + TAG && |p| <= Chunk(cap)
    ensures TxSized(o.tx, cap)
  {
    if t.seqno == U64_MAX then TxOutcome(false, t)
    else
      var s := t.seqno + 1;
      var head := Header(|p| + TAG, s);
      TxOutcome(|t.ring| + HEADER + |box| <= cap,
                t.(seqno := s, sealed := t.sealed + [Sealed(s, head, p, box)],
                   ring := Appended(t.ring, head + box, cap)))
  }

  /** read_direct. */
  function ReadDirect(t: Tx, cap: nat, io: Io): (o: TxOutcome)
    requires CapOk(cap) && TxSized(t, cap) && RecvFits(cap, Direct, io)
    ensures TxSized(o.tx, cap)
  {
    match io.recv
    case Data(p) => Encrypt(t.(taken := t.taken + p), cap, p, io.box)
    case Eof => TxOutcome(true, t.(eof := true))
    case RecvBlocked => TxOutcome(true, t)
    case RecvFailed => TxOutcome(false, t)
  }

  // ----- work to direct -----

  /** One send from to_direct, and the PROXY header countdown of flush_relay. */
  function FlushRx(x: Rx, send: SendResult): (o: RxOutcome)
    requires SendFits(send, x.ring)
    ensures o.rx.header == x.header && o.rx.taken == x.taken
    ensures o.rx.eof == x.eof && o.rx.shut == x.shut && o.rx.input == x.input
  {
    if x.ring == [] then RxOutcome(true, Counted(x, 0))
    else match send
      case Sent(n) =>
        RxOutcome(true, Counted(x.(ring := x.ring[n..], sent := x.sent + x.ring[..n]), n))
      case SendBlocked => RxOutcome(true, Counted(x, 0))
      case SendFailed => RxOutcome(false, x)
  }

  function Counted(x: Rx, consumed: nat): Rx
  {
    if !x.pending then x
    else if consumed >= x.remaining then x.(remaining := 0, pending := false)
    else x.(remaining := x.remaining - consumed)
  }

  datatype Step = Wait | Broken(rx: Rx) | Next(rx: Rx)

  /** decrypt_ready touches only the input ring, the output ring and the receive number. */
  ghost predicate OnlyDecrypted(x: Rx, y: Rx)
  {
    y == x.(input := y.input, ring := y.ring, seqno := y.seqno)
  }

  /** One turn of decrypt_ready's loop, against the log the peer has sealed. */
  function DecryptOne(x: Rx, cap: nat, log: seq<Sealed>): (t: Step)
    requires RxSized(x, cap)
    ensures !t.Wait? ==> RxSized(t.rx, cap) && OnlyDecrypted(x, t.rx)
    ensures t.Next? ==> |t.rx.input| < |x.input|
  {
    if |x.input| < HEADER then Wait
    else
      match DecodeHeader(x.input[..HEADER], Chunk(cap), x.seqno)
      case None => Broken(x)
      case Some(d) =>
        if |x.input| < HEADER + d.0 || cap - |x.ring| < d.0 - TAG then Wait
        else
          var rest := x.input[HEADER + d.0..];
          match Open(log, d.1, x.input[..HEADER], x.input[HEADER..HEADER + d.0])
          case None => Broken(x.(input := rest))
          case Some(p) =>
            var out := Appended(x.ring, p, cap);
            if |x.ring| + |p| > cap then Broken(x.(input := rest, ring := out))
            else Next(x.(input := rest, ring := out, seqno := d.1))
  }

  /** decrypt_ready: consume complete records while the plaintext has room. */
  function Decrypt(x: Rx, cap: nat, log: seq<Sealed>): (o: RxOutcome)
    requires RxSized(x, cap)
    ensures RxSized(o.rx, cap) && OnlyDecrypted(x, o.rx)
    decreases |x.input|
  {
    match DecryptOne(x, cap, log)
    case Wait => RxOutcome(true, x)
    case Broken(y) => RxOutcome(false, y)
    case Next(y) => Decrypt(y, cap, log)
  }

  /** read_work. */
  function ReadWork(x: Rx, cap: nat, recv: RecvResult, log: seq<Sealed>): (o: RxOutcome)
    requires RxSized(x, cap)
    ensures RxSized(o.rx, cap) && o.rx.header == x.header
    ensures o.rx.taken == if recv.Data? then x.taken + recv.bytes else x.taken
    ensures o.rx.eof == (x.eof || recv.Eof?) && o.rx.shut == x.shut
  {
    match recv
    case Data(b) =>
      var y := x.(taken := x.taken + b, input := Appended(x.input, b, cap));
      if |x.input| + |b| > cap then RxOutcome(false, y) else Decrypt(y, cap, log)
    case Eof => RxOutcome(true, x.(eof := true))
    case RecvBlocked => RxOutcome(true, x)
    case RecvFailed => RxOutcome(false, x)
  }

  // ----- accounting and closing -----

  function Buffered(r: State): nat
  {
    |r.rx.ring| + |r.tx.ring| + |r.rx.input|
  }

  function Opened(m: Counters): Counters
  {
    Inc(Inc(Inc(m, STREAMS_OPENED), ACTIVE_STREAMS), WORK_ACTIVE)
  }

  function Closed(m: Counters): Counters
  {
    Dec(Dec(Inc(m, STREAMS_CLOSED), ACTIVE_STREAMS), WORK_ACTIVE)
  }

  /** sync_buffer_metric. */
  function Sync(r: State, m: Counters): Accounted
    requires Sized(r)
  {
    var now := Buffered(r);
    Accounted(r.(accounted := now),
              if now >= r.accounted then Add(m, BUFFER_CURRENT, now - r.accounted)
              else Sub(m, BUFFER_CURRENT, r.accounted - now))
  }

  function Emptied(r: State): State
  {
    r.(closed := true, accounted := 0, tx := r.tx.(ring := []), rx := r.rx.(input := [], ring := []))
  }

  /** ct_relay_close: settle the gauges, close both sockets, free the rings. */
  function Close(r: State, m: Counters): Accounted
    requires Sized(r)
  {
    if r.closed then Accounted(r, m)
    else
      var s := Sync(r, m);
      Accounted(Emptied(r), Closed(Sub(s.m, BUFFER_CURRENT, s.st.accounted)))
  }

  // ----- ct_relay_process -----

  ghost predicate SameRelay(r: State, o: State)
  {
    && o.cap == r.cap && o.closed == r.closed && o.accounted == r.accounted
    && o.rx.header == r.rx.header
  }

  function Stage1(r: State, fd: Fd, ev: Ready, io: Io): (o: Outcome)
    requires Sized(r) && Plausible(r, fd, io)
    ensures Sized(o.st) && SameRelay(r, o.st) && o.st.rx.taken == r.rx.taken
  {
    if !ev.write then Outcome(true, r)
    else match fd
      case Direct => var f := FlushRx(r.rx, io.send); Outcome(f.ok, r.(rx := f.rx))
      case Work => var f := FlushTx(r.tx, io.send); Outcome(f.ok, r.(tx := f.tx))
  }

  function Stage2(r: State, fd: Fd, log: seq<Sealed>): (o: Outcome)
    requires Sized(r)
    ensures Sized(o.st) && SameRelay(r, o.st) && o.st.rx.taken == r.rx.taken
  {
    if fd == Direct && r.rx.input != [] then
      var d := Decrypt(r.rx, r.cap, log); Outcome(d.ok, r.(rx := d.rx))
    else Outcome(true, r)
  }

  function Stage3(r: State, fd: Fd, ev: Ready, io: Io, log: seq<Sealed>): (o: Outcome)
    requires Sized(r) && RecvFits(r.cap, fd, io)
    ensures Sized(o.st) && SameRelay(r, o.st)
    ensures o.st.rx.taken == r.rx.taken || o.st.rx.taken == TakenIn(r.rx.taken, fd, ev, io)
  {
    if !ev.read then Outcome(true, r)
    else match fd
      case Direct => var t := ReadDirect(r.tx, r.cap, io); Outcome(t.ok, r.(tx := t.tx))
      case Work => var x := ReadWork(r.rx, r.cap, io.recv, log); Outcome(x.ok, r.(rx := x.rx))
  }

  /** What one call may add to the bytes read from work. */
  function TakenIn(taken: seq<byte>, fd: Fd, ev: Ready, io: Io): seq<byte>
  {
    if fd == Work && ev.read && io.recv.Data? then taken + io.recv.bytes else taken
  }

  function HalfClosed(r: State): State
  {
    r.(tx := if r.tx.eof && r.tx.ring == [] then r.tx.(shut := true) else r.tx,
       rx := if r.rx.eof && r.rx.ring == [] then r.rx.(shut := true) else r.rx)
  }

  /** The tail of ct_relay_process: half-closes, then the normal close. */
  function Settle(r: State, m: Counters): (p: Processed)
    requires Sized(r)
    ensures Sized(p.st)
  {
    var h := HalfClosed(r);
    if r.tx.eof && r.rx.eof && r.rx.ring == [] && r.tx.ring == [] then
      var c := Close(h, m); Processed(-1, c.st, c.m)
    else Processed(0, h, m)
  }

  function Fail(r: State, m: Counters): (p: Processed)
    requires Sized(r)
    ensures Sized(p.st)
  {
    var c := Close(r, Inc(m, STREAMS_FAILED));
    Processed(-1, c.st, c.m)
  }

  /** ct_relay_process from its read on. */
  function FromRead(r: State, m: Counters, fd: Fd, ev: Ready, io: Io, log: seq<Sealed>): (p: Processed)
    requires Sized(r) && RecvFits(r.cap, fd, io)
    ensures Sized(p.st)
  {
    var x := Stage3(r, fd, ev, io, log);
    if !x.ok then Fail(x.st, m) else var s := Sync(x.st, m); Settle(s.st, s.m)
  }

  /** ct_relay_process from its second drain on. */
  function FromDrain(r: State, m: Counters, fd: Fd, ev: Ready, io: Io, log: seq<Sealed>): (p: Processed)
    requires Sized(r) && RecvFits(r.cap, fd, io)
    ensures Sized(p.st)
  {
    var d := Stage2(r, fd, log);
    if !d.ok then Fail(d.st, m) else var s := Sync(d.st, m); FromRead(s.st, s.m, fd, ev, io, log)
  }

  /** ct_relay_process. `log` is what the peer has sealed towards this relay. */
  function Process(r: State, m: Counters, fd: Fd, ev: Ready, io: Io, log: seq<Sealed>): (p: Processed)
    requires Sized(r) && Plausible(r, fd, io)
    ensures Sized(p.st)
  {
    if r.closed then Processed(-1, r, m)
    else
      var f := Stage1(r, fd, ev, io);
      if !f.ok then Fail(f.st, m) else var s := Sync(f.st, m); FromDrain(s.st, s.m, fd, ev, io, log)
  }

  /** The three fallible stages run together, leaving the accounting aside. */
  function Advance(r: State, fd: Fd, ev: Ready, io: Io, log: seq<Sealed>): (o: Outcome)
    requires Sized(r) && Plausible(r, fd, io)
    ensures Sized(o.st) && SameRelay(r, o.st)
    ensures o.st.rx.taken == r.rx.taken || o.st.rx.taken == TakenIn(r.rx.taken, fd, ev, io)
  {
    var f := Stage1(r, fd, ev, io);
    if !f.ok then f
    else
      var d := Stage2(f.st, fd, log);
      if !d.ok then d else Stage3(d.st, fd, ev, io, log)
  }

  predicate Finished(r: State)
  {
    r.tx.eof && r.rx.eof && r.rx.ring == [] && r.tx.ring == []
  }

  lemma StagesIgnoreAccounting(r: State, a: nat, fd: Fd, ev: Ready, io: Io, log: seq<Sealed>)
    requires Sized(r) && a <= 3 * r.cap && RecvFits(r.cap, fd, io)
    ensures var q := r.(accounted := a);
      && Stage2(q, fd, log).ok == Stage2(r, fd, log).ok
      && Stage2(q, fd, log).st == Stage2(r, fd, log).st.(accounted := a)
      && Stage3(q, fd, ev, io, log).ok == Stage3(r, fd, ev, io, log).ok
      && Stage3(q, fd, ev, io, log).st == Stage3(r, fd, ev, io, log).st.(accounted := a)
  {
  }

  /** How a call ends: a close after a failure, a normal close, or neither; in the last
      case the accounted bytes are the buffered bytes. */
  function Ended(o: Outcome): (int, State)
  {
    if !o.ok then (-1, Emptied(o.st))
    else if Finished(o.st) then (-1, Emptied(HalfClosed(o.st)))
    else (0, HalfClosed(o.st).(accounted := Buffered(o.st)))
  }

  /** The state ct_relay_process leaves, without the process-wide counters. */
  function After(r: State, fd: Fd, ev: Ready, io: Io, log: seq<Sealed>): State
    requires Sized(r) && Plausible(r, fd, io)
  {
    if r.closed then r else Ended(Advance(r, fd, ev, io, log)).1
  }

  lemma SettleIsEnded(r: State, m: Counters, a: nat)
    requires Sized(r) && !r.closed && a <= 3 * r.cap
    ensures var s := Sync(r, m); var p := Settle(s.st, s.m);
      (p.rc, p.st) == Ended(Outcome(true, r.(accounted := a)))
  {
  }

  lemma FailIsEnded(r: State, m: Counters, a: nat)
    requires Sized(r) && !r.closed && a <= 3 * r.cap
    ensures var p := Fail(r, m);
      (p.rc, p.st) == Ended(Outcome(false, r.(accounted := a)))
  {
  }

  /** ct_relay_process, accounting included, moves the relay as After says. */
  lemma ProcessIsAfter(r: State, m: Counters, fd: Fd, ev: Ready, io: Io, log: seq<Sealed>)
    requires Sized(r) && Plausible(r, fd, io)
    ensures var p := Process(r, m, fd, ev, io, log);
      && p.st == After(r, fd, ev, io, log)
      && p.rc == if r.closed then -1 else Ended(Advance(r, fd, ev, io, log)).0
  {
    if r.closed { return; }
    var a := r.accounted;
    var f := Stage1(r, fd, ev, io);
    if !f.ok { FailIsEnded(f.st, m, a); }
    else {
      var s1 := Sync(f.st, m);
      StagesIgnoreAccounting(f.st, s1.st.accounted, fd, ev, io, log);
      var d := Stage2(s1.st, fd, log);
      if !d.ok { FailIsEnded(d.st, s1.m, a); }
      else {
        var s2 := Sync(d.st, s1.m);
        var d' := Stage2(f.st, fd, log);
        assert s2.st == d'.st.(accounted := s2.st.accounted);
        StagesIgnoreAccounting(d'.st, s2.st.accounted, fd, ev, io, log);
        var x := Stage3(s2.st, fd, ev, io, log);
        if !x.ok { FailIsEnded(x.st, s2.m, a); }
        else { SettleIsEnded(x.st, s2.m, a); }
      }
    }
  }
}

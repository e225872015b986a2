/** The encrypted relay as the program runs it: three rings and a handful of fields
    updated in place (src/net/relay.c), proved against RelaySpec. */
module Relays {
  import opened Bytes
  import opened Rings
  import opened Records
  import opened Metrics
  import opened RelaySpec

  method CountOpened(m: Registry)
    requires m.Valid()
    modifies m.g
    ensures m.Now() == Opened(old(m.Now()))
  {
    m.Plus(STREAMS_OPENED, 1);
    m.Plus(ACTIVE_STREAMS, 1);
    m.Plus(WORK_ACTIVE, 1);
  }

  method CountClosed(m: Registry)
    requires m.Valid()
    modifies m.g
    ensures m.Now() == Closed(old(m.Now()))
  {
    m.Plus(STREAMS_CLOSED, 1);
    m.Minus(ACTIVE_STREAMS, 1);
    m.Minus(WORK_ACTIVE, 1);
  }

  class Relay {
    const cap: nat
    const toDirect: Ring
    const toWork: Ring
    const workInput: Ring
    var closed: bool
    var directEof: bool
    var workEof: bool
    var headerPending: bool
    var headerRemaining: nat
    var accounted: nat
    var sendSeq: nat
    var recvSeq: nat

    // What has crossed the sockets, and what has been sealed.
    ghost const header: seq<byte>
    ghost var fromDirect: seq<byte>
    ghost var sentDirect: seq<byte>
    ghost var fromWork: seq<byte>
    ghost var sentWork: seq<byte>
    ghost var directShut: bool
    ghost var workShut: bool
    ghost var sealed: seq<Sealed>

    ghost predicate Distinct()
    {
      && toDirect != toWork && toDirect != workInput && toWork != workInput
      && toDirect.data != toWork.data && toDirect.data != workInput.data
      && toWork.data != workInput.data
    }

    ghost predicate Valid()
      reads this, toDirect, toWork, workInput
    {
      && Distinct()
      && toDirect.Valid() && toWork.Valid() && workInput.Valid()
      && toDirect.cap == cap && toWork.cap == cap && workInput.cap == cap
      && CapOk(cap) && accounted <= 3 * cap
      && sendSeq < U64_LIMIT && recvSeq < U64_LIMIT
    }

    ghost function TxView(): Tx
      requires Valid()
      reads this, toDirect, toWork, workInput, toWork.data
    {
      Tx(directEof, sendSeq, toWork.Content(), fromDirect, sentWork, sealed, workShut)
    }

    ghost function RxView(): Rx
      requires Valid()
      reads this, toDirect, toWork, workInput, toDirect.data, workInput.data
    {
      Rx(workEof, recvSeq, workInput.Content(), toDirect.Content(),
         headerPending, headerRemaining, fromWork, sentDirect, header, directShut)
    }

    ghost function View(): (s: State)
      requires Valid()
      reads this, toDirect, toWork, workInput, toDirect.data, toWork.data, workInput.data
      ensures Sized(s)
    {
      State(cap, closed, accounted, TxView(), RxView())
    }

    /** ct_relay_init after the keys are derived and the PROXY header is built. */
    constructor (capacity: nat, proxyHeader: seq<byte>, m: Registry)
      requires CapOk(capacity) && |proxyHeader| <= capacity && m.Valid()
      modifies m.g
      ensures Valid() && View() == Init(capacity, proxyHeader)
      ensures m.Now() == Opened(old(m.Now()))
      ensures fresh(toDirect) && fresh(toWork) && fresh(workInput)
      ensures fresh(toDirect.data) && fresh(toWork.data) && fresh(workInput.data)
    {
      cap := capacity;
      toDirect := new Ring(capacity);
      toWork := new Ring(capacity);
      workInput := new Ring(capacity);
      closed, directEof, workEof := false, false, false;
      accounted, sendSeq, recvSeq := 0, 0, 0;
      headerPending, headerRemaining := false, 0;
      header := proxyHeader;
      fromDirect, sentDirect, fromWork, sentWork, sealed := [], [], [], [], [];
      directShut, workShut := false, false;
      new;
      QueueHeader(proxyHeader);
      CountOpened(m);
    }

    method QueueHeader(h: seq<byte>)
      requires Valid() && |h| <= cap && toDirect.Content() == []
      requires !headerPending && headerRemaining == 0
      modifies `headerPending, `headerRemaining, toDirect`len, toDirect.data
      ensures Valid() && toDirect.Content() == h
      ensures headerPending == (h != []) && headerRemaining == |h|
    {
      if h != [] {
        var n := toDirect.Write(h);
        AppendedWhole([], h, cap);
        headerPending := true;
        headerRemaining := n;
      }
    }

    method SyncBufferMetric(m: Registry)
      requires Valid() && Apart(m)
      modifies `accounted, m.g
      ensures Valid()
      ensures Accounted(View(), m.Now()) == Sync(old(View()), old(m.Now()))
    {
      var now := toDirect.len + toWork.len + workInput.len;
      if now >= accounted {
        m.Plus(BUFFER_CURRENT, now - accounted);
      } else {
        m.Minus(BUFFER_CURRENT, accounted - now);
      }
      accounted := now;
    }

    /** ct_relay_close. A second call frees the rings again and counts nothing. */
    method Close(m: Registry)
      requires Valid() && Apart(m)
      modifies `accounted, `closed, m.g, toDirect, toWork, workInput
      modifies toDirect.data, toWork.data, workInput.data
      ensures Valid() && closed
      ensures !old(closed) ==>
                Accounted(View(), m.Now()) == RelaySpec.Close(old(View()), old(m.Now()))
      ensures old(closed) ==> m.Now() == old(m.Now()) && accounted == old(accounted)
      ensures workInput.Content() == [] && toDirect.Content() == [] && toWork.Content() == []
    {
      if !closed {
        SyncBufferMetric(m);
        m.Minus(BUFFER_CURRENT, accounted);
        accounted := 0;
        CountClosed(m);
      }
      FreeRings();
      closed := true;
    }

    method FreeRings()
      requires Valid()
      modifies toDirect, toWork, workInput, toDirect.data, toWork.data, workInput.data
      ensures Valid()
      ensures workInput.Content() == [] && toDirect.Content() == [] && toWork.Content() == []
    {
      workInput.Free();
      toDirect.Free();
      toWork.Free();
    }

    method Events(fd: Fd) returns (ev: Ready)
      requires Valid()
      ensures ev == Ready(WantsRead(View(), fd), WantsWrite(View(), fd))
    {
      if closed { return Ready(false, false); }
      match fd
      case Direct =>
        ev := Ready(!directEof && toWork.len < cap - Chunk(cap) - 32, toDirect.len > 0);
      case Work =>
        ev := Ready(!workEof && workInput.len < cap - Chunk(cap) - 32, toWork.len > 0);
    }

    /** flush_relay towards work. The answer of send is at most what peek offered. */
    method FlushWork(send: SendResult) returns (ok: bool)
      requires Valid() && (send.Sent? ==> 1 <= send.n <= toWork.Run())
      modifies `sentWork, toWork
      ensures Valid()
      ensures TxOutcome(ok, TxView()) == FlushTx(old(TxView()), send)
    {
      var p := toWork.Peek();
      if |p| == 0 { return true; }
      match send
      case Sent(n) =>
        sentWork := sentWork + toWork.Content()[..n];
        toWork.Consume(n);
        ok := true;
      case SendBlocked => ok := true;
      case SendFailed => ok := false;
    }

    /** flush_relay towards direct, with the header countdown. */
    method FlushDirect(send: SendResult) returns (ok: bool)
      requires Valid() && (send.Sent? ==> 1 <= send.n <= toDirect.Run())
      modifies `sentDirect, `headerPending, `headerRemaining, toDirect
      ensures Valid()
      ensures RxOutcome(ok, RxView()) == FlushRx(old(RxView()), send)
    {
      var before := toDirect.len;
      ok := true;
      var p := toDirect.Peek();
      if |p| != 0 {
        match send
        case Sent(n) =>
          sentDirect := sentDirect + toDirect.Content()[..n];
          toDirect.Consume(n);
        case SendBlocked =>
        case SendFailed => ok := false;
      }
      if ok && headerPending {
        var consumed := before - toDirect.len;
        if consumed >= headerRemaining {
          headerRemaining := 0;
          headerPending := false;
        } else {
          headerRemaining := headerRemaining - consumed;
        }
      }
    }
  
    method EncryptChunk(p: seq<byte>, box: seq<byte>) returns (ok: bool)
      requires Valid() && |box| == |p| + TAG && |p| <= Chunk(cap)
      modifies `sendSeq, `sealed, toWork`len, toWork.data
      ensures Valid()
      ensures TxOutcome(ok, TxView()) == Encrypt(old(TxView()), cap, p, box)
    {
      if sendSeq == U64_MAX { return false; }
      sendSeq := sendSeq + 1;
      var head := Header(|p| + TAG, sendSeq);
      sealed := sealed + [Sealed(sendSeq, head, p, box)];
      var n := toWork.Write(head + box);
      ok := n == HEADER + |box|;
    }

    /** Look at the possibly wrapped header through a copy of the ring. */
    method PeekHeader() returns (h: seq<byte>)
      requires Valid() && workInput.len >= HEADER
      ensures h == workInput.Content()[..HEADER]
    {
      var rr := new Ring.View(workInput);
      h := rr.Read(HEADER);
    }

    method TakeRecord(n: nat) returns (h: seq<byte>, box: seq<byte>)
      requires Valid() && workInput.len >= HEADER + n
      modifies workInput`head, workInput`len
      ensures Valid()
      ensures h == old(workInput.Content())[..HEADER]
      ensures box == old(workInput.Content())[HEADER..HEADER + n]
      ensures workInput.Content() == old(workInput.Content())[HEADER + n..]
    {
      h := workInput.Read(HEADER);
      box := workInput.Read(n);
    }

    /** The body of decrypt_ready's loop: consume a record only when it is complete and
        its plaintext fits. */
    method DecryptTurn(log: seq<Sealed>) returns (again: bool, ok: bool)
      requires Valid() && workInput.len >= HEADER
      modifies `recvSeq, workInput`head, workInput`len, toDirect`len, toDirect.data
      ensures Valid()
      ensures match DecryptOne(old(RxView()), cap, log)
        case Wait => !again && ok && RxView() == old(RxView())
        case Broken(y) => !again && !ok && RxView() == y
        case Next(y) => again && ok && RxView() == y
    {
      var h := PeekHeader();
      var d := DecodeHeader(h, Chunk(cap), recvSeq);
      if d.None? { return false, false; }
      var n, s := d.value.0, d.value.1;
      if workInput.len < HEADER + n { return false, true; }
      if cap - toDirect.len < n - TAG { return false, true; }
      var box;
      h, box := TakeRecord(n);
      var plain := Open(log, s, h, box);
      if plain.None? { return false, false; }
      var w := toDirect.Write(plain.value);
      if w != |plain.value| { return false, false; }
      recvSeq := s;
      return true, true;
    }

    method DecryptReady(log: seq<Sealed>) returns (ok: bool)
      requires Valid()
      modifies `recvSeq, workInput`head, workInput`len, toDirect`len, toDirect.data
      ensures Valid()
      ensures RxOutcome(ok, RxView()) == Decrypt(old(RxView()), cap, log)
    {
      while workInput.len >= HEADER
        invariant Valid()
        invariant Decrypt(RxView(), cap, log) == Decrypt(old(RxView()), cap, log)
        decreases workInput.len
      {
        var again, good := DecryptTurn(log);
        if !again { return good; }
      }
      ok := true;
    }

    method ReadFromDirect(io: Io) returns (ok: bool)
      requires Valid() && RecvFits(cap, Direct, io)
      modifies `directEof, `fromDirect, `sendSeq, `sealed, toWork`len, toWork.data
      ensures Valid()
      ensures TxOutcome(ok, TxView()) == ReadDirect(old(TxView()), cap, io)
    {
      match io.recv
      case Data(b) =>
        fromDirect := fromDirect + b;
        ok := EncryptChunk(b, io.box);
      case Eof =>
        directEof := true;
        ok := true;
      case RecvBlocked => ok := true;
      case RecvFailed => ok := false;
    }

    method ReadFromWork(recv: RecvResult, log: seq<Sealed>) returns (ok: bool)
      requires Valid()
      modifies `workEof, `fromWork, `recvSeq, workInput, workInput.data
      modifies toDirect`len, toDirect.data
      ensures Valid()
      ensures RxOutcome(ok, RxView()) == ReadWork(old(RxView()), cap, recv, log)
    {
      match recv
      case Data(b) =>
        fromWork := fromWork + b;
        var n := workInput.Write(b);
        if n != |b| { return false; }
        ok := DecryptReady(log);
      case Eof =>
        workEof := true;
        ok := true;
      case RecvBlocked => ok := true;
      case RecvFailed => ok := false;
    }
  
    // ----- ct_relay_process -----

    ghost predicate Apart(m: Registry)
      reads m
    {
      m.Valid() && m.g as object !in {toDirect.data as object, toWork.data, workInput.data}
    }

    ghost predicate Answerable(fd: Fd, io: Io)
      reads toDirect, toWork
    {
      && (io.send.Sent? ==>
            1 <= io.send.n <= if fd == Direct then toDirect.Run() else toWork.Run())
      && RecvFits(cap, fd, io)
    }

    method Flush(fd: Fd, ev: Ready, io: Io) returns (ok: bool)
      requires Valid() && Answerable(fd, io)
      modifies `sentWork, `sentDirect, `headerPending, `headerRemaining, toWork, toDirect
      ensures Valid()
      ensures Outcome(ok, View()) == Stage1(old(View()), fd, ev, io)
    {
      if !ev.write { return true; }
      match fd
      case Direct => ok := FlushDirect(io.send);
      case Work => ok := FlushWork(io.send);
    }

    method Drain(fd: Fd, log: seq<Sealed>) returns (ok: bool)
      requires Valid()
      modifies `recvSeq, workInput`head, workInput`len, toDirect`len, toDirect.data
      ensures Valid()
      ensures Outcome(ok, View()) == Stage2(old(View()), fd, log)
    {
      ok := true;
      if fd == Direct && workInput.len > 0 { ok := DecryptReady(log); }
    }

    method Receive(fd: Fd, ev: Ready, io: Io, log: seq<Sealed>) returns (ok: bool)
      requires Valid() && RecvFits(cap, fd, io)
      modifies this, workInput, workInput.data, toDirect`len, toDirect.data, toWork`len, toWork.data
      ensures Valid()
      ensures Outcome(ok, View()) == Stage3(old(View()), fd, ev, io, log)
    {
      if !ev.read { return true; }
      match fd
      case Direct => ok := ReadFromDirect(io);
      case Work => ok := ReadFromWork(io.recv, log);
    }

    method HalfClose()
      requires Valid()
      modifies `workShut, `directShut
      ensures Valid() && View() == HalfClosed(old(View()))
    {
      if directEof && toWork.len == 0 { workShut := true; }
      if workEof && toDirect.len == 0 { directShut := true; }
    }

    method Finish(m: Registry) returns (rc: int)
      requires Valid() && Apart(m) && !closed
      modifies this, m.g, toDirect, toWork, workInput
      modifies toDirect.data, toWork.data, workInput.data
      ensures Valid()
      ensures Processed(rc, View(), m.Now()) == Settle(old(View()), old(m.Now()))
    {
      HalfClose();
      if directEof && workEof && toDirect.len == 0 && toWork.len == 0 {
        Close(m);
        return -1;
      }
      return 0;
    }

    method Abort(m: Registry)
      requires Valid() && Apart(m) && !closed
      modifies `accounted, `closed, m.g, toDirect, toWork, workInput
      modifies toDirect.data, toWork.data, workInput.data
      ensures Valid()
      ensures Processed(-1, View(), m.Now()) == Fail(old(View()), old(m.Now()))
    {
      m.Plus(STREAMS_FAILED, 1);
      Close(m);
    }

    /** One event on one socket. Beyond the state it leaves, every claim proved of
        RelaySpec.Process and RelaySpec.After is a claim about this method. */
    method Process(fd: Fd, ev: Ready, io: Io, log: seq<Sealed>, m: Registry) returns (rc: int)
      requires Valid() && Apart(m) && Answerable(fd, io)
      modifies this, m.g, toDirect, toWork, workInput
      modifies toDirect.data, toWork.data, workInput.data
      ensures Valid()
      ensures Processed(rc, View(), m.Now())
           == RelaySpec.Process(old(View()), old(m.Now()), fd, ev, io, log)
    {
      if closed { return -1; }
      var ok := Flush(fd, ev, io);
      if !ok { Abort(m); return -1; }
      SyncBufferMetric(m);
      ok := Drain(fd, log);
      if !ok { Abort(m); return -1; }
      SyncBufferMetric(m);
      ok := Receive(fd, ev, io, log);
      if !ok { Abort(m); return -1; }
      SyncBufferMetric(m);
      rc := Finish(m);
    }
  }
}

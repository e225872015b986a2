/** The encrypted control channel: ct_control_send and ct_control_recv
    (src/net/net.c:482-530), and the nonces they and the relays seal under
    (src/crypto/crypto_monocypher.c:456-459). */
module ControlChannel {
  import opened Bytes
  import opened Protocol
  import opened Records

  datatype Msg = Msg(kind: byte, stream: u64, payload: seq<byte>)

  /** How the world answers one send: whether memory was there for the box, the bytes of
      the box, and whether the socket took everything. */
  datatype SendIo = SendIo(memory: bool, box: seq<byte>, wrote: bool)

  /** tx_seq, every call that was given a number, and every box sealed. */
  datatype Sender = Sender(txSeq: u64, numbered: seq<Msg>, log: seq<Sealed>)

  /** rx_seq and every message accepted. */
  datatype Receiver = Receiver(rxSeq: u64, accepted: seq<Msg>)

  /** The session the two ends share. */
  datatype Session = Session(id: u64, maxFrame: u32)

  function HeaderFor(s: Session, m: Msg, seqno: u64): Frame
    requires |m.payload| + TAG <= s.maxFrame
  {
    Frame(m.kind, ENCRYPTED, |m.payload| + TAG, s.id, m.stream, seqno)
  }

  /** ct_control_send. A number is taken before anything can fail, and never given back. */
  function Send(s: Session, c: Sender, m: Msg, io: SendIo): (int, Sender)
    requires |io.box| == |m.payload| + TAG
  {
    if c.txSeq == U64_MAX || |m.payload| + TAG > s.maxFrame then (-1, c)
    else
      var seqno := c.txSeq + 1;
      var c1 := c.(txSeq := seqno, numbered := c.numbered + [m]);
      var head := EncodeFrame(HeaderFor(s, m, seqno), s.maxFrame);
      if !io.memory || head.None? then (-1, c1)
      else (if io.wrote then 0 else -1, c1.(log := c.log + [Sealed(seqno, head.value, m.payload, io.box)]))
  }

  /** ct_control_recv on whatever 36 bytes and box the stream presents. `capacity` is the
      caller's buffer; `log` is what the peer has sealed under this direction's key. */
  function Recv(s: Session, c: Receiver, log: seq<Sealed>, head: seq<byte>, box: seq<byte>, capacity: nat)
    : (int, Receiver)
    requires |head| == FRAME
  {
    match DecodeFrame(head, s.maxFrame)
    case None => (-1, c)
    case Some(h) =>
      if h.flags != ENCRYPTED || h.session != s.id || c.rxSeq == U64_MAX
         || h.sequence != c.rxSeq + 1 || h.payloadLen < TAG || h.payloadLen > capacity + TAG
         || |box| != h.payloadLen
      then (-1, c)
      else
        match Open(log, h.sequence, head, box)
        case None => (-1, c)
        case Some(p) => (0, Receiver(h.sequence, c.accepted + [Msg(h.kind, h.stream, p)]))
  }

  // ----- what both ends keep -----

  /** A sealed box is that of the call that took its number. */
  ghost predicate SealedFor(s: Session, e: Sealed, numbered: seq<Msg>)
  {
    && 1 <= e.seqno <= |numbered| && e.seqno < U64_LIMIT
    && var m := numbered[e.seqno - 1];
    && |m.payload| + TAG <= s.maxFrame
    && e.plain == m.payload
    && EncodeFrame(HeaderFor(s, m, e.seqno), s.maxFrame) == Some(e.ad)
  }

  ghost predicate SenderHolds(s: Session, c: Sender)
  {
    && |c.numbered| == c.txSeq
    && (forall i {:trigger c.log[i]} :: 0 <= i < |c.log| ==> SealedFor(s, c.log[i], c.numbered))
    && (forall i, j {:trigger c.log[i], c.log[j]} :: 0 <= i < j < |c.log| ==> c.log[i].seqno < c.log[j].seqno)
  }

  ghost predicate ReceiverHolds(c: Receiver, numbered: seq<Msg>)
  {
    |c.accepted| == c.rxSeq && c.accepted <= numbered
  }

  lemma SendHolds(s: Session, c: Sender, m: Msg, io: SendIo)
    requires SenderHolds(s, c) && |io.box| == |m.payload| + TAG
    ensures SenderHolds(s, Send(s, c, m, io).1)
    ensures c.numbered <= Send(s, c, m, io).1.numbered
  {
    var d := Send(s, c, m, io).1;
    forall i | 0 <= i < |d.log| ensures SealedFor(s, d.log[i], d.numbered) {
      if i < |c.log| { assert SealedFor(s, c.log[i], c.numbered); }
    }
    forall i, j | 0 <= i < j < |d.log| ensures d.log[i].seqno < d.log[j].seqno {
      if i < |c.log| { assert SealedFor(s, c.log[i], c.numbered); }
    }
  }

  lemma PrefixNext(a: seq<Msg>, m: Msg, b: seq<Msg>)
    requires a <= b && |a| < |b| && b[|a|] == m
    ensures a + [m] <= b
  {
  }

  lemma RecvHolds(s: Session, c: Receiver, d: Sender, head: seq<byte>, box: seq<byte>, capacity: nat)
    requires SenderHolds(s, d) && ReceiverHolds(c, d.numbered) && |head| == FRAME
    ensures ReceiverHolds(Recv(s, c, d.log, head, box, capacity).1, d.numbered)
  {
    var (rc, q) := Recv(s, c, d.log, head, box, capacity);
    if rc == 0 {
      var h := DecodeFrame(head, s.maxFrame).value;
      var k := OpenedWasSealed(d.log, h.sequence, head, box);
      assert SealedFor(s, d.log[k], d.numbered);
      var m := d.numbered[h.sequence - 1];
      FrameInverse(head, HeaderFor(s, m, h.sequence), s.maxFrame);
      assert h == HeaderFor(s, m, h.sequence);
      PrefixNext(c.accepted, m, d.numbered);
    }
  }

  // ----- any run -----

  datatype Event =
    | Sending(m: Msg, sio: SendIo)
    | Receiving(head: seq<byte>, box: seq<byte>, capacity: nat)

  datatype Link = Link(tx: Sender, rx: Receiver)

  function LinkStep(s: Session, l: Link, e: Event): Link
  {
    match e
    case Sending(m, io) =>
      if |io.box| == |m.payload| + TAG then l.(tx := Send(s, l.tx, m, io).1) else l
    case Receiving(head, box, capacity) =>
      if |head| == FRAME then l.(rx := Recv(s, l.rx, l.tx.log, head, box, capacity).1) else l
  }

  function LinkRun(s: Session, events: seq<Event>): Link
    decreases |events|
  {
    if events == [] then Link(Sender(0, [], []), Receiver(0, []))
    else LinkStep(s, LinkRun(s, events[..|events| - 1]), events[|events| - 1])
  }

  lemma {:induction false} LinkHolds(s: Session, events: seq<Event>)
    ensures var l := LinkRun(s, events); SenderHolds(s, l.tx) && ReceiverHolds(l.rx, l.tx.numbered)
    decreases |events|
  {
    if events != [] {
      var before, e := events[..|events| - 1], events[|events| - 1];
      LinkHolds(s, before);
      var l := LinkRun(s, before);
      match e
      case Sending(m, io) => if |io.box| == |m.payload| + TAG { SendHolds(s, l.tx, m, io); }
      case Receiving(head, box, capacity) =>
        if |head| == FRAME { RecvHolds(s, l.rx, l.tx, head, box, capacity); }
    }
  }

  /** Prefix delivery: whatever bytes are presented to the receiver, in whatever order
      with the sends, the messages it accepts are a prefix of the calls that were given a
      number, type, stream and payload alike. */
  lemma AcceptedIsPrefix(s: Session, events: seq<Event>)
    ensures LinkRun(s, events).rx.accepted <= LinkRun(s, events).tx.numbered
  {
    LinkHolds(s, events);
  }

  lemma SealedIs(s: Session, c: Sender, m: Msg, box: seq<byte>)
    requires c.txSeq < U64_MAX && TypeValid(m.kind)
    requires |m.payload| + TAG <= s.maxFrame && |box| == |m.payload| + TAG
    ensures var head, d := FrameBytes(HeaderFor(s, m, c.txSeq + 1)), Send(s, c, m, SendIo(true, box, true)).1;
      && d.numbered == c.numbered + [m] && d.log == c.log + [Sealed(c.txSeq + 1, head, m.payload, box)]
      && DecodeFrame(head, s.maxFrame) == Some(HeaderFor(s, m, c.txSeq + 1))
  {
    var h := HeaderFor(s, m, c.txSeq + 1);
    FrameInverse(FrameBytes(h), h, s.maxFrame);
  }

  lemma NewestOpens(log: seq<Sealed>, e: Sealed)
    ensures Open(log + [e], e.seqno, e.ad, e.box) == Some(e.plain)
  {
    assert (log + [e])[|log|] == e;
  }

  /** A message that is sent and arrives as it was sent, at a receiver that has accepted
      everything numbered before. */
  lemma ArrivesAsSent(s: Session, l: Link, m: Msg, box: seq<byte>, capacity: nat)
    requires l.rx.accepted == l.tx.numbered && SenderHolds(s, l.tx) && ReceiverHolds(l.rx, l.tx.numbered)
    requires l.tx.txSeq < U64_MAX && TypeValid(m.kind)
    requires |m.payload| + TAG <= s.maxFrame && |m.payload| <= capacity && |box| == |m.payload| + TAG
    ensures var head, tx := FrameBytes(HeaderFor(s, m, l.tx.txSeq + 1)), Send(s, l.tx, m, SendIo(true, box, true)).1;
      && tx.numbered == l.tx.numbered + [m]
      && Recv(s, l.rx, tx.log, head, box, capacity).1.accepted == tx.numbered
  {
    SealedIs(s, l.tx, m, box);
    NewestOpens(l.tx.log, Sealed(l.tx.txSeq + 1, FrameBytes(HeaderFor(s, m, l.tx.txSeq + 1)), m.payload, box));
  }

  lemma LinkNext(s: Session, events: seq<Event>, e: Event)
    ensures LinkRun(s, events + [e]) == LinkStep(s, LinkRun(s, events), e)
  {
    assert (events + [e])[..|events|] == events;
  }

  /** Delivery: once the peer has accepted everything numbered so far, a message that is
      sent and arrives as it was sent is accepted too. */
  lemma CaughtUpStays(s: Session, events: seq<Event>, m: Msg, box: seq<byte>, capacity: nat)
    requires LinkRun(s, events).rx.accepted == LinkRun(s, events).tx.numbered
    requires LinkRun(s, events).tx.txSeq < U64_MAX
    requires |m.payload| + TAG <= s.maxFrame && |m.payload| <= capacity && |box| == |m.payload| + TAG
    requires TypeValid(m.kind)
    ensures var head := FrameBytes(HeaderFor(s, m, LinkRun(s, events).tx.txSeq + 1));
      var l := LinkRun(s, events + [Sending(m, SendIo(true, box, true)), Receiving(head, box, capacity)]);
      l.tx.numbered == LinkRun(s, events).tx.numbered + [m] && l.rx.accepted == l.tx.numbered
  {
    var l := LinkRun(s, events);
    LinkHolds(s, events);
    ArrivesAsSent(s, l, m, box, capacity);
    var sent := Sending(m, SendIo(true, box, true));
    var heard := Receiving(FrameBytes(HeaderFor(s, m, l.tx.txSeq + 1)), box, capacity);
    LinkNext(s, events, sent);
    LinkNext(s, events + [sent], heard);
    assert events + [sent] + [heard] == events + [sent, heard];
  }

  // ----- nonces -----

  /** make_nonce: a 16-byte base and the sequence number. */
  function Nonce(base: seq<byte>, seqno: u64): seq<byte>
    requires |base| == 16
  {
    base + U64(seqno)
  }

  lemma NonceInjective(base: seq<byte>, a: u64, b: u64)
    requires |base| == 16 && Nonce(base, a) == Nonce(base, b)
    ensures a == b
  {
    assert Nonce(base, a)[16..] == U64(a) && Nonce(base, b)[16..] == U64(b);
    Got64(a); Got64(b);
  }

  /** No two boxes of a log were sealed under one nonce. */
  ghost predicate NoncesDistinct(base: seq<byte>, log: seq<Sealed>)
    requires |base| == 16
  {
    && (forall i :: 0 <= i < |log| ==> log[i].seqno < U64_LIMIT)
    && forall i, j :: 0 <= i < j < |log| ==> Nonce(base, log[i].seqno) != Nonce(base, log[j].seqno)
  }

  /** Control: in no run of sends, failed ones and the last number included, does the
      channel seal twice under one nonce. */
  lemma ControlNoncesDistinct(s: Session, events: seq<Event>, base: seq<byte>)
    requires |base| == 16
    ensures NoncesDistinct(base, LinkRun(s, events).tx.log)
  {
    LinkHolds(s, events);
    var log := LinkRun(s, events).tx.log;
    forall i | 0 <= i < |log| ensures log[i].seqno < U64_LIMIT {
      assert SealedFor(s, log[i], LinkRun(s, events).tx.numbered);
    }
    forall i, j | 0 <= i < j < |log| ensures Nonce(base, log[i].seqno) != Nonce(base, log[j].seqno) {
      if Nonce(base, log[i].seqno) == Nonce(base, log[j].seqno) {
        NonceInjective(base, log[i].seqno, log[j].seqno);
      }
    }
  }

  /** Relays: a log in sequence, which every run of a relay keeps, uses no nonce twice. */
  lemma RelayNoncesDistinct(log: seq<Sealed>, maxPlain: nat, base: seq<byte>)
    requires |base| == 16 && InSequence(log, maxPlain)
    ensures NoncesDistinct(base, log)
  {
    forall i | 0 <= i < |log| ensures log[i].seqno < U64_LIMIT {
      assert Framed(log[i], i + 1, maxPlain);
    }
    forall i, j | 0 <= i < j < |log| ensures Nonce(base, log[i].seqno) != Nonce(base, log[j].seqno) {
      assert Framed(log[i], i + 1, maxPlain) && Framed(log[j], j + 1, maxPlain);
      if Nonce(base, log[i].seqno) == Nonce(base, log[j].seqno) {
        NonceInjective(base, log[i].seqno, log[j].seqno);
      }
    }
  }

  // ----- the calls that take no number -----

  /** A call that is too long takes no number and blocks nothing behind it, so what is
      accepted need not be a prefix of all calls: of [too long, m] the peer accepts [m]. */
  lemma OversizedCallIsSkipped(s: Session, big: Msg, m: Msg, bigBox: seq<byte>, box: seq<byte>)
    requires |big.payload| + TAG > s.maxFrame && |bigBox| == |big.payload| + TAG
    requires |m.payload| + TAG <= s.maxFrame && |box| == |m.payload| + TAG
    requires TypeValid(m.kind)
    ensures var head := FrameBytes(HeaderFor(s, m, 1));
      LinkRun(s, [Sending(big, SendIo(true, bigBox, true)), Sending(m, SendIo(true, box, true)),
                  Receiving(head, box, |m.payload|)]).rx.accepted == [m]
  {
    var refused := Sending(big, SendIo(true, bigBox, true));
    var l0 := LinkRun(s, []);
    assert [refused][..0] == [];
    assert LinkRun(s, [refused]) == LinkStep(s, l0, refused) == l0;
    CaughtUpStays(s, [refused], m, box, |m.payload|);
    var sent, heard := Sending(m, SendIo(true, box, true)), Receiving(FrameBytes(HeaderFor(s, m, 1)), box, |m.payload|);
    assert [refused] + [sent, heard] == [refused, sent, heard];
  }

  function Passed(events: seq<Event>): seq<Msg>
    decreases |events|
  {
    if events == [] then []
    else
      var before, e := Passed(events[..|events| - 1]), events[|events| - 1];
      if e.Sending? && |e.sio.box| == |e.m.payload| + TAG then before + [e.m] else before
  }

  /** The sender would refuse this call a number: it is too long, or none is left. */
  predicate Refuses(s: Session, c: Sender, m: Msg)
  {
    c.txSeq == U64_MAX || |m.payload| + TAG > s.maxFrame
  }

  /** How many calls were made before the first one that was refused a number. */
  function BeforeRefusal(s: Session, events: seq<Event>): nat
    decreases |events|
  {
    if events == [] then 0
    else
      var before, e := events[..|events| - 1], events[|events| - 1];
      var n := BeforeRefusal(s, before);
      if n < |Passed(before)| || !IsCall(e) || Refuses(s, LinkRun(s, before).tx, e.m) then n else n + 1
  }

  predicate IsCall(e: Event) { e.Sending? && |e.sio.box| == |e.m.payload| + TAG }

  /** ct_control_send succeeds exactly when the call is not refused, its type is known, memory
      is there for the box and the socket takes everything. */
  lemma SendSucceedsIff(s: Session, c: Sender, m: Msg, io: SendIo)
    requires |io.box| == |m.payload| + TAG
    ensures Send(s, c, m, io).0 == 0 <==> !Refuses(s, c, m) && TypeValid(m.kind) && io.memory && io.wrote
  {
    if !Refuses(s, c, m) {
      var h := HeaderFor(s, m, c.txSeq + 1);
      if TypeValid(m.kind) { FrameInverse(FrameBytes(h), h, s.maxFrame); }
    }
  }

  /** ct_control_recv succeeds exactly when it accepts a message, and otherwise changes nothing. */
  lemma RecvSucceedsIff(s: Session, c: Receiver, log: seq<Sealed>, head: seq<byte>, box: seq<byte>, capacity: nat)
    requires |head| == FRAME
    ensures var (rc, d) := Recv(s, c, log, head, box, capacity);
      if rc == 0 then |d.accepted| == |c.accepted| + 1 && c.accepted <= d.accepted && d.rxSeq == c.rxSeq + 1
      else d == c
  {
  }

  /** The calls before the first refusal are the first messages numbered; the refused call
      is too long for a frame, or the numbers have run out for good. */
  ghost predicate RefusalIs(s: Session, passed: seq<Msg>, c: Sender, n: nat)
  {
    && n <= |passed| && n <= |c.numbered| && c.numbered[..n] == passed[..n]
    && (n < |passed| ==> |passed[n].payload| + TAG > s.maxFrame || (|c.numbered| == n && c.txSeq == U64_MAX))
    && (n == |passed| ==> |c.numbered| == n)
    && forall i :: 0 <= i < |c.numbered| ==> |c.numbered[i].payload| + TAG <= s.maxFrame
  }

  lemma RefusalStep(s: Session, passed: seq<Msg>, c: Sender, n: nat, m: Msg, io: SendIo)
    requires RefusalIs(s, passed, c, n) && |io.box| == |m.payload| + TAG
    ensures RefusalIs(s, passed + [m], Send(s, c, m, io).1, if n < |passed| || Refuses(s, c, m) then n else n + 1)
  {
    var k := if n < |passed| || Refuses(s, c, m) then n else n + 1;
    var d := Send(s, c, m, io).1;
    assert (passed + [m])[..n] == passed[..n];
    assert d.numbered[..n] == c.numbered[..n];
    if k == n + 1 { assert d.numbered[..k] == d.numbered && (passed + [m])[..k] == passed + [m]; }
  }

  lemma {:induction false} RefusalHolds(s: Session, events: seq<Event>)
    ensures RefusalIs(s, Passed(events), LinkRun(s, events).tx, BeforeRefusal(s, events))
    decreases |events|
  {
    if events != [] {
      var before, e := events[..|events| - 1], events[|events| - 1];
      RefusalHolds(s, before);
      if IsCall(e) {
        RefusalStep(s, Passed(before), LinkRun(s, before).tx, BeforeRefusal(s, before), e.m, e.sio);
      }
    }
  }

  /** The messages the peer accepts are a prefix of all calls of ct_control_send exactly as
      long as it has accepted no more of them than were made before the first refused one. */
  lemma PrefixOfAllCallsIff(s: Session, events: seq<Event>)
    ensures LinkRun(s, events).rx.accepted <= Passed(events)
       <==> |LinkRun(s, events).rx.accepted| <= BeforeRefusal(s, events)
  {
    var l, passed, n := LinkRun(s, events), Passed(events), BeforeRefusal(s, events);
    LinkHolds(s, events);
    RefusalHolds(s, events);
    var a := l.rx.accepted;
    assert a == l.tx.numbered[..|a|];
    if |a| <= n {
      assert l.tx.numbered[..|a|] == l.tx.numbered[..n][..|a|] == passed[..n][..|a|] == passed[..|a|];
    }
  }

  /** Every call so far was short enough and found a number left. */
  predicate NoneRefused(s: Session, events: seq<Event>)
    decreases |events|
  {
    events == [] ||
    var before, e := events[..|events| - 1], events[|events| - 1];
    NoneRefused(s, before) && (IsCall(e) ==> !Refuses(s, LinkRun(s, before).tx, e.m))
  }

  /** The numbered calls are all the calls exactly when none was refused a number. */
  lemma {:induction false} NumberedIffNoneRefused(s: Session, events: seq<Event>)
    ensures |LinkRun(s, events).tx.numbered| <= |Passed(events)|
    ensures NoneRefused(s, events) <==> |LinkRun(s, events).tx.numbered| == |Passed(events)|
    ensures NoneRefused(s, events) <==> LinkRun(s, events).tx.numbered == Passed(events)
    decreases |events|
  {
    if events != [] { NumberedIffNoneRefused(s, events[..|events| - 1]); }
  }

  // ----- as the program holds it -----

  class Control {
    const session: Session
    var txSeq: u64
    var rxSeq: u64
    ghost var numbered: seq<Msg>
    ghost var log: seq<Sealed>
    ghost var accepted: seq<Msg>

    ghost function TxView(): Sender reads this { Sender(txSeq, numbered, log) }
    ghost function RxView(): Receiver reads this { Receiver(rxSeq, accepted) }

    constructor (s: Session)
      ensures session == s && TxView() == Sender(0, [], []) && RxView() == Receiver(0, [])
    {
      session := s;
      txSeq, rxSeq := 0, 0;
      numbered, log, accepted := [], [], [];
    }

    method SendMessage(m: Msg, io: SendIo) returns (rc: int)
      requires |io.box| == |m.payload| + TAG
      modifies `txSeq, `numbered, `log
      ensures (rc, TxView()) == Send(session, old(TxView()), m, io)
    {
      if txSeq == U64_MAX || |m.payload| + TAG > session.maxFrame { return -1; }
      txSeq := txSeq + 1;
      numbered := numbered + [m];
      var head := EncodeFrame(HeaderFor(session, m, txSeq), session.maxFrame);
      if !io.memory || head.None? { return -1; }
      log := log + [Sealed(txSeq, head.value, m.payload, io.box)];
      rc := if io.wrote then 0 else -1;
    }

    method ReceiveMessage(peer: seq<Sealed>, head: seq<byte>, box: seq<byte>, capacity: nat)
      returns (rc: int, m: Msg)
      requires |head| == FRAME
      modifies `rxSeq, `accepted
      ensures (rc, RxView()) == Recv(session, old(RxView()), peer, head, box, capacity)
      ensures rc == 0 ==> RxView().accepted == old(RxView().accepted) + [m]
    {
      m := Msg(0, 0, []);
      rc := -1;
      var d := DecodeFrame(head, session.maxFrame);
      if d.None? { return; }
      var h := d.value;
      if h.flags != ENCRYPTED || h.session != session.id || rxSeq == U64_MAX
         || h.sequence != rxSeq + 1 || h.payloadLen < TAG || h.payloadLen > capacity + TAG
         || |box| != h.payloadLen
      { return; }
      var p := Open(peer, h.sequence, head, box);
      if p.None? { return; }
      rxSeq := h.sequence;
      m := Msg(h.kind, h.stream, p.value);
      accepted := accepted + [m];
      rc := 0;
    }
  }
}

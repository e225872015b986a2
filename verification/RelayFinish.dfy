/** Closing does come: a half-close follows as soon as it may, and from every smooth run of
    roomy relays both ends can be brought to close with everything delivered
    (src/net/relay.c:137-157, 272-318). */
module RelayFinish {
  import opened Bytes
  import opened Rings
  import opened Records
  import opened RelaySpec
  import opened RelaySafety
  import opened RelayProgress
  import opened RelayPair
  import opened RelayClose
  import opened RelayStall

  // ----- one call -----

  /** An open relay has passed every end of file on as soon as nothing waits before it, and
      has closed if both have been passed on. */
  ghost predicate Prompt(r: State)
  {
    !r.closed ==>
      && (r.tx.eof && r.tx.ring == [] ==> r.tx.shut)
      && (r.rx.eof && r.rx.ring == [] ==> r.rx.shut)
      && !(r.tx.eof && r.tx.ring == [] && r.rx.eof && r.rx.ring == [])
  }

  /** Every call leaves the relay prompt: at end of file on direct with an empty to_work it
      shuts work for writing, at end of file on work with an empty to_direct it shuts direct,
      and with both it closes. */
  lemma AfterIsPrompt(r: State, fd: Fd, ev: Ready, io: Io, log: seq<Sealed>)
    requires Sized(r) && Plausible(r, fd, io) && !r.closed
    ensures Prompt(After(r, fd, ev, io, log))
  {
  }

  /** A call reports the end of the relay exactly when it leaves it closed. */
  lemma VerdictIsClosed(r: State, fd: Fd, ev: Ready, io: Io, log: seq<Sealed>)
    requires Sized(r) && Plausible(r, fd, io) && !r.closed
    ensures After(r, fd, ev, io, log).closed <==> Ended(Advance(r, fd, ev, io, log)).0 == -1
  {
  }

  /** A read or a send that fails closes the relay and is reported. */
  lemma FailureCloses(r: State, fd: Fd, ev: Ready, io: Io, log: seq<Sealed>)
    requires Sized(r) && Plausible(r, fd, io) && !r.closed
    requires (ev.read && io.recv.RecvFailed?) || (ev.write && io.send.SendFailed? && WantsWrite(r, fd))
    ensures After(r, fd, ev, io, log).closed && Ended(Advance(r, fd, ev, io, log)).0 == -1
  {
  }

  ghost predicate PairPrompt(p: Pair) { Prompt(p.client) && Prompt(p.server) }

  lemma StepPrompt(p: Pair, e: Event)
    requires PairPrompt(p)
    ensures PairPrompt(Stepped(p, e))
  {
    var r := Me(p, e);
    if Sized(r) && Plausible(r, e.fd, e.io) && !r.closed {
      AfterIsPrompt(r, e.fd, e.ev, e.io, Other(p, e).tx.sealed);
    }
  }

  // ----- continuations -----

  /** An event that smoothness allows and ct_relay_events asked for. */
  ghost predicate Asked(p: Pair, e: Event)
  {
    Smooth(p, e) && (e.ev.write ==> WantsWrite(Me(p, e), e.fd))
  }

  ghost predicate AskedRun(p: Pair, events: seq<Event>)
    decreases |events|
  {
    events == [] ||
    var before := events[..|events| - 1];
    AskedRun(p, before) && Asked(Run(p, before), events[|events| - 1])
  }

  lemma {:induction false} AskedIsSmooth(p: Pair, events: seq<Event>)
    requires AskedRun(p, events)
    ensures SmoothRun(p, events)
    decreases |events|
  {
    if events != [] { AskedIsSmooth(p, events[..|events| - 1]); }
  }

  /** Some run of asked-for events leads from p to q. */
  ghost predicate LeadsTo(p: Pair, q: Pair)
  {
    exists events :: AskedRun(p, events) && q == Run(p, events)
  }

  lemma {:induction false} RunConcat(p: Pair, a: seq<Event>, b: seq<Event>)
    ensures Run(p, a + b) == Run(Run(p, a), b)
    ensures AskedRun(p, a + b) <==> AskedRun(p, a) && AskedRun(Run(p, a), b)
    decreases |b|
  {
    if b == [] {
      assert a + b == a;
    } else {
      var init := b[..|b| - 1];
      RunConcat(p, a, init);
      assert (a + b)[..|a + b| - 1] == a + init;
    }
  }

  lemma LeadsSelf(p: Pair)
    ensures LeadsTo(p, p)
  {
    assert AskedRun(p, []) && p == Run(p, []);
  }

  lemma LeadsStep(p: Pair, e: Event)
    requires Asked(p, e)
    ensures LeadsTo(p, Stepped(p, e))
  {
    assert [e][..0] == [];
    assert Run(p, []) == p && AskedRun(p, []);
    var before := [e][..|[e]| - 1];
    assert before == [];
    assert AskedRun(p, [e]) && Stepped(p, e) == Run(p, [e]);
  }

  lemma LeadsFurther(p: Pair, q: Pair, r: Pair)
    requires LeadsTo(p, q) && LeadsTo(q, r)
    ensures LeadsTo(p, r)
  {
    var a :| AskedRun(p, a) && q == Run(p, a);
    var b :| AskedRun(q, b) && r == Run(q, b);
    RunConcat(p, a, b);
    assert AskedRun(p, a + b);
  }

  /** Everything a continuation relies on. */
  ghost predicate Sound(p: Pair)
  {
    && PairOk(p) && PairPrompt(p)
    && p.client.tx.seqno < U64_MAX && p.server.tx.seqno < U64_MAX
  }

  function End(p: Pair, atClient: bool): State { if atClient then p.client else p.server }

  /** What a step that takes nothing in from direct leaves as it is. */
  ghost predicate NoneTaken(p: Pair, q: Pair)
  {
    && q.client.tx.taken == p.client.tx.taken && q.server.tx.taken == p.server.tx.taken
    && q.client.cap == p.client.cap && q.server.cap == p.server.cap
    && q.client.rx.header == p.client.rx.header && q.server.rx.header == p.server.rx.header
  }

  ghost predicate Reaches(p: Pair, q: Pair) { LeadsTo(p, q) && Sound(q) && NoneTaken(p, q) }

  /** An event that was asked for and reads no data from direct. */
  ghost predicate Quiet(p: Pair, e: Event)
  {
    && Asked(p, e) && Plausible(Me(p, e), e.fd, e.io) && !Me(p, e).closed
    && !(e.fd == Direct && e.ev.read && e.io.recv.Data?)
  }

  /** A call that reads no data from direct seals nothing and takes nothing. */
  lemma QuietTx(r: State, fd: Fd, ev: Ready, io: Io, log: seq<Sealed>)
    requires Sized(r) && Plausible(r, fd, io) && !(fd == Direct && ev.read && io.recv.Data?)
    ensures var t := After(r, fd, ev, io, log).tx; t.taken == r.tx.taken && t.seqno == r.tx.seqno
  {
    TxOfAdvance(r, fd, ev, io, log);
  }

  lemma QuietTakesNone(p: Pair, e: Event)
    requires Sound(p) && Quiet(p, e)
    ensures var q := Stepped(p, e);
      NoneTaken(p, q) && q.client.tx.seqno == p.client.tx.seqno && q.server.tx.seqno == p.server.tx.seqno
  {
    var r, log := Me(p, e), Other(p, e).tx.sealed;
    QuietTx(r, e.fd, e.ev, e.io, log);
    AfterFixed(r, e.fd, e.ev, e.io, log);
  }

  lemma QuietStep(p: Pair, e: Event)
    requires Sound(p) && Quiet(p, e)
    ensures Reaches(p, Stepped(p, e))
  {
    StepOk(p, e);
    StepPrompt(p, e);
    LeadsStep(p, e);
    QuietTakesNone(p, e);
  }

  lemma ReachesFurther(p: Pair, q: Pair, r: Pair)
    requires Reaches(p, q) && Reaches(q, r)
    ensures Reaches(p, r)
  {
    LeadsFurther(p, q, r);
  }

  // ----- the sending halves -----

  function FlushWork(p: Pair, at: bool): Event
  {
    Event(at, Work, Ready(false, true), Io(Sent(|End(p, at).tx.ring|), RecvBlocked, []))
  }

  function EndOfDirect(at: bool): Event { Event(at, Direct, Ready(true, false), Io(SendBlocked, Eof, [])) }

  /** What is shut stays shut, at both ends. */
  ghost predicate KeepsShut(p: Pair, q: Pair)
  {
    && (p.client.tx.shut ==> q.client.tx == p.client.tx) && (p.server.tx.shut ==> q.server.tx == p.server.tx)
  }

  lemma StepKeepsShut(p: Pair, e: Event)
    requires Sound(p) && Quiet(p, e)
    ensures KeepsShut(p, Stepped(p, e))
  {
    StepSenderOk(p, e);
  }

  lemma FlushedWork(p: Pair, at: bool)
    requires Sound(p) && !End(p, at).closed && End(p, at).tx.ring != []
    ensures Quiet(p, FlushWork(p, at))
    ensures var q := Stepped(p, FlushWork(p, at));
      End(q, at).tx.ring == [] && (End(q, at).closed || End(q, at).tx.eof == End(p, at).tx.eof)
  {
    var r := End(p, at);
    assert r.tx.ring[|r.tx.ring|..] == [];
  }

  lemma EndedDirect(p: Pair, at: bool)
    requires Sound(p) && !End(p, at).closed && End(p, at).tx.ring == [] && !End(p, at).tx.eof
    ensures Quiet(p, EndOfDirect(at))
    ensures End(Stepped(p, EndOfDirect(at)), at).tx.shut
    ensures Still(p) ==> Still(Stepped(p, EndOfDirect(at)))
  {
    var r, o, e := End(p, at), End(p, !at), EndOfDirect(at);
    AdvanceSucceeds(p, e);
    TxOfAdvance(r, e.fd, e.ev, e.io, o.tx.sealed);
  }

  /** Nothing is under way in either direction, but perhaps in to_direct. */
  ghost predicate Still(p: Pair)
  {
    && p.client.tx.ring == [] && p.client.rx.input == [] && |p.client.rx.taken| == |p.server.tx.sent|
    && p.server.tx.ring == [] && p.server.rx.input == [] && |p.server.rx.taken| == |p.client.tx.sent|
  }

  /** An end can finish sending: flush what waits, then reach end of file on direct. */
  lemma SenderFinishes(p: Pair, at: bool) returns (q: Pair)
    requires Sound(p)
    ensures Reaches(p, q) && KeepsShut(p, q) && End(q, at).tx.shut
    ensures Still(p) ==> Still(q)
  {
    LeadsSelf(p);
    q := p;
    if End(q, at).closed || End(q, at).tx.shut { return; }
    if End(q, at).tx.ring != [] {
      var e := FlushWork(p, at);
      FlushedWork(p, at);
      QuietStep(p, e);
      StepKeepsShut(p, e);
      q := Stepped(p, e);
      if End(q, at).closed || End(q, at).tx.shut { return; }
    }
    assert !End(q, at).tx.eof;
    var f := EndOfDirect(at);
    EndedDirect(q, at);
    QuietStep(q, f);
    StepKeepsShut(q, f);
    ReachesFurther(p, q, Stepped(q, f));
    q := Stepped(q, f);
  }

  // ----- the receiving halves -----

  function FlushDirect(p: Pair, at: bool): Event
  {
    Event(at, Direct, Ready(false, true), Io(Sent(|End(p, at).rx.ring|), RecvBlocked, []))
  }

  /** The next bytes in flight towards this end, at most a buffer full. */
  function InComing(p: Pair, at: bool): seq<byte>
    requires |End(p, at).rx.taken| <= |End(p, !at).tx.sent|
  {
    var n := |End(p, !at).tx.sent| - |End(p, at).rx.taken|;
    var k := if n < Chunk(End(p, at).cap) + 32 then n else Chunk(End(p, at).cap) + 32;
    End(p, !at).tx.sent[|End(p, at).rx.taken|..][..k]
  }

  function ReadIncoming(p: Pair, at: bool): Event
    requires |End(p, at).rx.taken| <= |End(p, !at).tx.sent|
  {
    Event(at, Work, Ready(true, false), Io(SendBlocked, Data(InComing(p, at)), []))
  }

  function EndOfWork(at: bool): Event { Event(at, Work, Ready(true, false), Io(SendBlocked, Eof, [])) }

  /** What is left to do for the receiving half: bytes in flight count twice, since reading
      them moves them to work_input. */
  ghost function Left(p: Pair, at: bool): int
  {
    var r := End(p, at);
    2 * (|End(p, !at).tx.sent| - |r.rx.taken|) + |r.rx.input| + |r.rx.ring|
  }

  /** The gate to the work connection opens whenever to_direct is empty: the ring is roomy,
      or nothing is under way. */
  ghost predicate Flowing(p: Pair, at: bool)
  {
    Roomy(End(p, at).cap) || (End(p, at).rx.input == [] && |End(p, at).rx.taken| == |End(p, !at).tx.sent|)
  }

  lemma {:induction false} DecryptLoses(x: Rx, cap: nat, log: seq<Sealed>, chunk: nat)
    requires RxSized(x, cap) && InSequence(log, chunk)
    ensures var y := Decrypt(x, cap, log).rx;
      |y.input| + |y.ring| <= |x.input| + |x.ring| && (x.input == [] ==> y == x)
    decreases |x.input|
  {
    var t := DecryptOne(x, cap, log);
    if t.Next? {
      var n := DecodeHeader(x.input[..HEADER], Chunk(cap), x.seqno).value.0;
      OpenedIsNext(log, chunk, x.seqno, x.input[..HEADER], x.input[HEADER..HEADER + n]);
      DecryptLoses(t.rx, cap, log, chunk);
    } else if t.Broken? {
      BrokenLoses(x, cap, log, chunk);
    }
  }

  lemma BrokenLoses(x: Rx, cap: nat, log: seq<Sealed>, chunk: nat)
    requires RxSized(x, cap) && InSequence(log, chunk) && DecryptOne(x, cap, log).Broken?
    ensures var y := DecryptOne(x, cap, log).rx; |y.input| + |y.ring| <= |x.input| + |x.ring| && x.input != []
  {
    var d := DecodeHeader(x.input[..HEADER], Chunk(cap), x.seqno);
    if d.Some? {
      var n := d.value.0;
      var h, box := x.input[..HEADER], x.input[HEADER..HEADER + n];
      if Open(log, x.seqno + 1, h, box).Some? { OpenedIsNext(log, chunk, x.seqno, h, box); }
    }
  }

  /** Sending all of to_direct, at an open relay. */
  lemma DirectEmpties(r: State, io: Io, log: seq<Sealed>, chunk: nat)
    requires Sized(r) && !r.closed && InSequence(log, chunk)
    requires r.rx.ring != [] && io == Io(Sent(|r.rx.ring|), RecvBlocked, [])
    ensures var x := After(r, Direct, Ready(false, true), io, log).rx;
      && |x.input| + |x.ring| < |r.rx.input| + |r.rx.ring|
      && x.taken == r.rx.taken && (r.rx.input == [] ==> x.input == [])
  {
    var f := FlushRx(r.rx, io.send).rx;
    assert f.ring == [];
    DecryptLoses(f, r.cap, log, chunk);
    RxOfAdvance(r, Direct, Ready(false, true), io, log);
  }

  lemma FlushedDirect(p: Pair, at: bool)
    requires Sound(p) && !End(p, at).closed && End(p, at).rx.ring != []
    ensures Quiet(p, FlushDirect(p, at))
    ensures var q := Stepped(p, FlushDirect(p, at));
      Left(q, at) < Left(p, at) && (Flowing(p, at) ==> Flowing(q, at))
  {
    var r, o, e := End(p, at), End(p, !at), FlushDirect(p, at);
    DirectEmpties(r, e.io, o.tx.sealed, Chunk(o.cap));
    AfterFixed(r, e.fd, e.ev, e.io, o.tx.sealed);
  }

  /** With to_direct empty the gate to the work connection is open. */
  lemma GateOpens(p: Pair, at: bool)
    requires Sound(p) && !End(p, at).closed && End(p, at).rx.ring == [] && !End(p, at).rx.eof && Flowing(p, at)
    ensures WantsRead(End(p, at), Work)
  {
  }

  /** Reading bytes from work that all fit, at an open relay. */
  lemma WorkTakes(r: State, b: seq<byte>, io: Io, log: seq<Sealed>, chunk: nat)
    requires Sized(r) && !r.closed && InSequence(log, chunk) && WantsRead(r, Work)
    requires io == Io(SendBlocked, Data(b), []) && 1 <= |b| <= Chunk(r.cap) + 32
    ensures var x := After(r, Work, Ready(true, false), io, log).rx;
      x.taken == r.rx.taken + b && |x.input| + |x.ring| <= |r.rx.input| + |r.rx.ring| + |b|
  {
    var y := r.rx.(taken := r.rx.taken + b, input := Appended(r.rx.input, b, r.cap));
    AppendedWhole(r.rx.input, b, r.cap);
    DecryptLoses(y, r.cap, log, chunk);
  }

  lemma ReadsIncoming(p: Pair, at: bool)
    requires Sound(p) && !End(p, at).closed && End(p, at).rx.ring == [] && !End(p, at).rx.eof && Flowing(p, at)
    requires |End(p, at).rx.taken| < |End(p, !at).tx.sent|
    ensures Quiet(p, ReadIncoming(p, at))
    ensures var q := Stepped(p, ReadIncoming(p, at));
      Left(q, at) < Left(p, at) && (Flowing(p, at) ==> Flowing(q, at))
  {
    var r, o, e := End(p, at), End(p, !at), ReadIncoming(p, at);
    var b := InComing(p, at);
    GateOpens(p, at);
    assert r.rx.taken + b <= o.tx.sent;
    WorkTakes(r, b, e.io, o.tx.sealed, Chunk(o.cap));
    AfterFixed(r, e.fd, e.ev, e.io, o.tx.sealed);
  }

  lemma EndedWork(p: Pair, at: bool)
    requires Sound(p) && !End(p, at).closed && End(p, at).rx.ring == [] && !End(p, at).rx.eof && Flowing(p, at)
    requires |End(p, at).rx.taken| == |End(p, !at).tx.sent| && End(p, !at).tx.shut
    ensures Quiet(p, EndOfWork(at)) && End(Stepped(p, EndOfWork(at)), at).rx.shut
  {
    GateOpens(p, at);
    assert End(p, at).rx.taken == End(p, !at).tx.sent;
  }

  /** Once the other end has finished sending, an end can finish receiving: flush, read what
      is under way, and reach end of file on work. */
  lemma ReceiverFinishes(p: Pair, at: bool) returns (q: Pair)
    requires Sound(p) && End(p, !at).tx.shut && Flowing(p, at)
    ensures Reaches(p, q) && KeepsShut(p, q) && End(q, at).rx.shut && End(q, !at) == End(p, !at)
    decreases Left(p, at)
  {
    LeadsSelf(p);
    q := p;
    var r := End(p, at);
    if r.closed || r.rx.shut { return; }
    var e;
    if r.rx.ring != [] {
      e := FlushDirect(p, at);
      FlushedDirect(p, at);
    } else {
      assert !r.rx.eof;
      if |r.rx.taken| < |End(p, !at).tx.sent| {
        e := ReadIncoming(p, at);
        ReadsIncoming(p, at);
      } else {
        e := EndOfWork(at);
        EndedWork(p, at);
      }
    }
    QuietStep(p, e);
    StepKeepsShut(p, e);
    q := Stepped(p, e);
    if !End(q, at).rx.shut {
      var z := ReceiverFinishes(q, at);
      ReachesFurther(p, q, z);
      q := z;
    }
  }

  // ----- both ends -----

  /** Both ends have closed, and each has delivered all the other took in, header first. */
  ghost predicate Complete(p: Pair)
  {
    && p.client.closed && p.server.closed
    && p.client.rx.sent == p.client.rx.header + p.server.tx.taken
    && p.server.rx.sent == p.server.rx.header + p.client.tx.taken
  }

  lemma AllShutIsComplete(p: Pair)
    requires Sound(p) && p.client.tx.shut && p.server.tx.shut && p.client.rx.shut && p.server.rx.shut
    ensures Complete(p)
  {
  }

  /** From here both ends can be brought to close, taking nothing more in. */
  lemma BothFinish(p: Pair) returns (q: Pair)
    requires Sound(p) && (Still(p) || (Roomy(p.client.cap) && Roomy(p.server.cap)))
    ensures Reaches(p, q) && Complete(q)
  {
    var a := SenderFinishes(p, true);
    var b := SenderFinishes(a, false);
    ReachesFurther(p, a, b);
    var c := ReceiverFinishes(b, true);
    ReachesFurther(p, b, c);
    assert Flowing(c, false);
    q := ReceiverFinishes(c, false);
    ReachesFurther(p, c, q);
    AllShutIsComplete(q);
  }

  // ----- over runs -----

  /** Some continuation of asked-for events closes both ends with everything delivered, and
      takes nothing more in from either direct socket. */
  ghost predicate CanComplete(p: Pair)
  {
    exists more :: AskedRun(p, more) && Complete(Run(p, more)) && NoneTaken(p, Run(p, more))
  }

  lemma {:induction false} RunPrompt(p: Pair, events: seq<Event>)
    requires Start(p)
    ensures PairPrompt(Run(p, events))
    decreases |events|
  {
    if events != [] {
      RunPrompt(p, events[..|events| - 1]);
      StepPrompt(Run(p, events[..|events| - 1]), events[|events| - 1]);
    }
  }

  /** No end has used up its sequence numbers. */
  ghost predicate NumbersLeft(p: Pair) { p.client.tx.seqno < U64_MAX && p.server.tx.seqno < U64_MAX }

  lemma BothFinishIs(p: Pair)
    requires Sound(p) && (Still(p) || (Roomy(p.client.cap) && Roomy(p.server.cap)))
    ensures CanComplete(p)
  {
    var q := BothFinish(p);
    var more :| AskedRun(p, more) && q == Run(p, more);
  }

  /** Main theorem: from wherever a smooth run of two roomy relays has got, whatever it has in
      its rings and in flight, both ends can still be brought to close, with every byte taken
      in delivered behind the PROXY header. */
  lemma CanAlwaysComplete(p: Pair, events: seq<Event>)
    requires Start(p) && SameChunk(p) && SmoothRun(p, events) && NumbersLeft(Run(p, events))
    requires Roomy(p.client.cap) && Roomy(p.server.cap)
    ensures CanComplete(Run(p, events))
  {
    RunOk(p, events);
    RunPrompt(p, events);
    CapsStay(p, events);
    BothFinishIs(Run(p, events));
  }

  /** A pair that has just started can complete, whatever its rings. */
  lemma StartCanComplete(p: Pair)
    requires Start(p) && SameChunk(p)
    ensures CanComplete(p)
  {
    assert p == Run(p, []) && SmoothRun(p, []);
    RunOk(p, []);
    RunPrompt(p, []);
    BothFinishIs(p);
  }

  // ----- a stalled relay never completes -----

  lemma StalledStep(p: Pair, e: Event)
    requires PairOk(p) && Stalled(p.server) && Smooth(p, e)
    ensures Stalled(Stepped(p, e).server)
  {
    var r, o := p.server, p.client;
    if !e.atClient && Plausible(r, e.fd, e.io) {
      var log := o.tx.sealed;
      StallIsForEver(r, e.fd, e.ev, e.io, log);
      AdvanceSucceeds(p, e);
      EofOfAdvance(r, e.fd, e.ev, e.io, log);
    }
  }

  lemma {:induction false} StalledRun(p: Pair, more: seq<Event>)
    requires PairOk(p) && Stalled(p.server) && SmoothRun(p, more)
    ensures PairOk(Run(p, more)) && Stalled(Run(p, more).server)
    decreases |more|
  {
    if more != [] {
      var before := more[..|more| - 1];
      StalledRun(p, before);
      StalledStep(Run(p, before), more[|more| - 1]);
      StepOk(Run(p, before), more[|more| - 1]);
    }
  }

  /** A smooth run from a start with rings of this size, with sequence numbers left. */
  ghost predicate Continuing(p: Pair, events: seq<Event>, cap: nat)
  {
    && Start(p) && p.client.cap == cap && p.server.cap == cap
    && SmoothRun(p, events) && NumbersLeft(Run(p, events))
  }

  /** Every such run can be completed. */
  ghost predicate AlwaysCompletes(cap: nat)
  {
    forall p: Pair, events: seq<Event> ::
      Continuing(p, events, cap) ==> CanComplete(Run(p, events))
  }

  lemma SmallRingCannot(cap: nat)
    requires CapOk(cap) && !Roomy(cap)
    ensures !AlwaysCompletes(cap)
  {
    var p, es := Fresh(cap), StallingRun(cap);
    SmallRingStalls(cap);
    RunOk(p, es);
    var q := Run(p, es);
    StallingNumbers(cap);
    if CanComplete(q) {
      var more :| AskedRun(q, more) && Complete(Run(q, more)) && NoneTaken(q, Run(q, more));
      AskedIsSmooth(q, more);
      StalledRun(q, more);
    }
    assert Continuing(p, es, cap) && !CanComplete(Run(p, es));
  }

  lemma StallingNumbers(cap: nat)
    requires CapOk(cap) && !Roomy(cap)
    ensures NumbersLeft(Run(Fresh(cap), StallingRun(cap)))
  {
    NumbersBounded(Fresh(cap), StallingRun(cap));
  }

  lemma NumberStep(r: State, fd: Fd, ev: Ready, io: Io, log: seq<Sealed>)
    requires Sized(r) && Plausible(r, fd, io)
    ensures After(r, fd, ev, io, log).tx.seqno <= r.tx.seqno + 1
  {
    TxOfAdvance(r, fd, ev, io, log);
  }

  lemma {:induction false} NumbersBounded(p: Pair, events: seq<Event>)
    requires Start(p)
    ensures Run(p, events).client.tx.seqno <= |events| && Run(p, events).server.tx.seqno <= |events|
    decreases |events|
  {
    if events != [] {
      var before, e := events[..|events| - 1], events[|events| - 1];
      NumbersBounded(p, before);
      var q := Run(p, before);
      var r := Me(q, e);
      if Sized(r) && Plausible(r, e.fd, e.io) { NumberStep(r, e.fd, e.ev, e.io, Other(q, e).tx.sealed); }
    }
  }

  /** Main theorem: every smooth run can be completed exactly when the ring holds two chunks
      and 60 bytes. */
  lemma CompletesIffRoomy(cap: nat)
    requires CapOk(cap)
    ensures AlwaysCompletes(cap) <==> Roomy(cap)
  {
    if Roomy(cap) {
      forall p: Pair, events: seq<Event> | Continuing(p, events, cap)
        ensures CanComplete(Run(p, events))
      {
        CanAlwaysComplete(p, events);
      }
    } else {
      SmallRingCannot(cap);
    }
  }
}

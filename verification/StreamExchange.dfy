/** START and READY in one session (src/net/net.c:769-827, 880-993; src/server/server.c:601-677,
    923-938; src/client/client.c:408-471): work connections are made with numbered ids, a START
    uses one up at the client, and an answer uses up the starting stream at the server. */
module StreamExchange {
  import opened Bytes
  import opened UdpCodec
  import opened Handshake
  import opened StreamBinding
  import opened ServerSpec

  const START: byte := 22
  const READY: byte := 23
  const FAILED: byte := 24

  /** Both ends hold one MAC key, and `macs` is every input either end has made a MAC for, so
      an ideal MAC verifies exactly on its members. The server's relays are given by their
      places in `started`. */
  datatype Exchange = Exchange(
    session: u64, client: seq<byte>, macs: set<seq<byte>>,
    workSeq: u64, idle: set<seq<byte>>, ids: Counter,
    started: seq<(Stream, Meta)>, waiting: set<nat>,
    clientRelays: seq<(Stream, Meta)>, serverRelays: seq<nat>)

  /** The service of a START is any configured one; `w` is any connection the server holds. */
  datatype Act =
    | MakeWork(tail: seq<byte>)
    | TakeId
    | SendStart(w: seq<byte>, service: seq<byte>, mode: byte, random: seq<byte>, m: Meta)
    | HearStart(on: seq<byte>, hs: Stream, hm: Meta, connected: bool)
    | HearReady(index: nat, kind: byte, ok: byte)
    | GiveUp(lost: nat)

  ghost function Input(x: Exchange, s: Stream, m: Option<Meta>, kind: byte, role: byte, ok: byte): seq<byte>
    requires |x.client| < U16_LIMIT && |s.service| < U16_LIMIT
  {
    MacInput(Bound(x.session, x.client, s, m, kind, role, ok))
  }

  /** A work id starts with its number. */
  function Number(w: seq<byte>): u64
    requires |w| == 32
  {
    GetU64(w[..8])
  }

  /** What ct_start_stream_recv lets through: a known mode and PROXY mode, and endpoints as
      they are decoded. */
  ghost predicate Receivable(s: Stream, m: Meta)
  {
    StreamSized(s) && s.mode <= 1 && m.proxy <= 2 && LegalEndpoint(m.source) && LegalEndpoint(m.destination)
  }

  /** What ct_start_stream_send can encode. */
  ghost predicate Encodable(s: Stream, m: Meta)
  {
    StreamSized(s) && MetaSized(m) && AddressLength(m.source.family) != 0 && AddressLength(m.destination.family) != 0
  }

  // ----- steps -----

  /** ct_work_connect; `tail` is the random part of the id. */
  ghost function WorkMade(x: Exchange, tail: seq<byte>): Exchange
  {
    if x.workSeq == U64_MAX || |tail| != 24 then x
    else x.(workSeq := x.workSeq + 1, idle := x.idle + {U64(x.workSeq + 1) + tail})
  }

  /** start_relay_begin: the next identifier is taken even if START cannot be sent. */
  ghost function StartSent(x: Exchange, w: seq<byte>, service: seq<byte>, mode: byte, random: seq<byte>,
                           m: Meta): Exchange
    requires |x.client| < U16_LIMIT
  {
    var s := Stream(w, service, mode, NextId(x.ids).next, random);
    var y := x.(ids := NextId(x.ids));
    if !Encodable(s, m) then y
    else y.(macs := x.macs + {Input(x, s, Some(m), START, 0, 1)},
            started := x.started + [(s, m)], waiting := x.waiting + {|x.started|})
  }

  /** A frame on an idle work connection: the connection leaves the table whatever it says.
      ct_start_stream_recv, then ct_stream_ready_send. */
  ghost function StartHeard(x: Exchange, on: seq<byte>, s: Stream, m: Meta, connected: bool): Exchange
    requires |x.client| < U16_LIMIT
  {
    if on !in x.idle then x
    else
      var y := x.(idle := x.idle - {on});
      if s.work != on || !Receivable(s, m) || Input(x, s, Some(m), START, 0, 1) !in x.macs then y
      else if !connected then y.(macs := x.macs + {Input(x, s, None, FAILED, 1, 0)})
      else y.(macs := x.macs + {Input(x, s, None, READY, 1, 1)}, clientRelays := x.clientRelays + [(s, m)])
  }

  /** ct_stream_ready_recv in start_relay_finish; the starting stream is gone afterwards. */
  ghost function ReadyHeard(x: Exchange, i: nat, kind: byte, ok: byte): Exchange
    requires |x.client| < U16_LIMIT
  {
    if i !in x.waiting || i >= |x.started| then x
    else
      var s, y := x.started[i].0, x.(waiting := x.waiting - {i});
      if (kind != READY && kind != FAILED) || ok > 1 || |s.service| >= U16_LIMIT
         || Input(x, s, None, kind, 1, ok) !in x.macs || ok == 0 || kind != READY then y
      else y.(serverRelays := x.serverRelays + [i])
  }

  ghost function Act1(x: Exchange, a: Act): (y: Exchange)
    requires |x.client| < U16_LIMIT
    ensures y.session == x.session && y.client == x.client
  {
    match a
    case MakeWork(tail) => WorkMade(x, tail)
    case TakeId => x.(ids := NextId(x.ids))
    case SendStart(w, service, mode, random, m) => StartSent(x, w, service, mode, random, m)
    case HearStart(on, s, m, connected) => StartHeard(x, on, s, m, connected)
    case HearReady(i, kind, ok) => ReadyHeard(x, i, kind, ok)
    case GiveUp(i) => x.(waiting := x.waiting - {i})
  }

  /** A session's exchange; `first` is where the server's identifiers start. */
  ghost function Acts(session: u64, client: seq<byte>, first: u64, acts: seq<Act>): (x: Exchange)
    requires |client| < U16_LIMIT
    ensures x.session == session && x.client == client
    decreases |acts|
  {
    if acts == [] then Exchange(session, client, {}, 0, {}, Counter(first, false), [], {}, [], [])
    else Act1(Acts(session, client, first, acts[..|acts| - 1]), acts[|acts| - 1])
  }

  // ----- what was made a MAC for -----

  /** Every MAC was made for a START of a started stream, or a READY of a client relay, or
      a FAILED. */
  ghost predicate Made(x: Exchange, i: seq<byte>)
  {
    exists b: Bound :: BoundSized(b) && i == MacInput(b) && MadeFor(x, b)
  }

  ghost predicate HasRelay(x: Exchange, s: Stream)
  {
    exists m: Meta :: (s, m) in x.clientRelays
  }

  ghost predicate MadeFor(x: Exchange, b: Bound)
  {
    || (b.kind == START && b.role == 0 && b.meta.Some? && (b.stream, b.meta.value) in x.started)
    || (b.kind == READY && b.role == 1 && b.ok == 1 && b.meta == None && HasRelay(x, b.stream))
    || b.kind == FAILED
  }

  ghost predicate MacsOk(x: Exchange)
  {
    && |x.client| < U16_LIMIT
    && (forall i {:trigger Made(x, i)} :: i in x.macs ==> Made(x, i))
    && (forall i :: 0 <= i < |x.started| ==> StreamSized(x.started[i].0) && MetaSized(x.started[i].1))
    && (forall p :: p in x.clientRelays ==> p in x.started)
    && (forall k :: 0 <= k < |x.serverRelays| ==>
          x.serverRelays[k] < |x.started| && HasRelay(x, x.started[x.serverRelays[k]].0))
  }

  lemma MadeStays(x: Exchange, y: Exchange, i: seq<byte>)
    requires Made(x, i) && x.started <= y.started && x.clientRelays <= y.clientRelays
    ensures Made(y, i)
  {
    var b: Bound :| BoundSized(b) && i == MacInput(b) && MadeFor(x, b);
    if b.kind == READY && b.role == 1 && b.ok == 1 && b.meta == None && HasRelay(x, b.stream) {
      RelayStays(x, y, b.stream);
    }
    assert MadeFor(y, b);
  }

  lemma RelayStays(x: Exchange, y: Exchange, s: Stream)
    requires HasRelay(x, s) && x.clientRelays <= y.clientRelays
    ensures HasRelay(y, s)
  {
    var m: Meta :| (s, m) in x.clientRelays;
    assert (s, m) in y.clientRelays;
  }

  lemma MadeIs(x: Exchange, b: Bound)
    requires BoundSized(b) && Made(x, MacInput(b))
    ensures MadeFor(x, b)
  {
    var a: Bound :| BoundSized(a) && MacInput(b) == MacInput(a) && MadeFor(x, a);
    MacInputInjective(a, b);
  }

  /** A step after which every new MAC, relay and server relay is accounted for. */
  lemma MacsStay(x: Exchange, y: Exchange)
    requires MacsOk(x) && y.client == x.client && x.started <= y.started && x.clientRelays <= y.clientRelays
    requires forall i :: i in y.macs ==> i in x.macs || Made(y, i)
    requires forall i :: |x.started| <= i < |y.started| ==> StreamSized(y.started[i].0) && MetaSized(y.started[i].1)
    requires forall p :: p in y.clientRelays ==> p in x.clientRelays || p in y.started
    requires forall k :: 0 <= k < |y.serverRelays| ==>
      || (k < |x.serverRelays| && y.serverRelays[k] == x.serverRelays[k])
      || (y.serverRelays[k] < |y.started| && HasRelay(y, y.started[y.serverRelays[k]].0))
    ensures MacsOk(y)
  {
    forall i | i in y.macs ensures Made(y, i) {
      if i in x.macs { assert Made(x, i); MadeStays(x, y, i); }
    }
    forall p | p in y.clientRelays ensures p in y.started {
      if p in x.clientRelays { assert p in x.started; }
    }
    forall k | 0 <= k < |y.serverRelays|
      ensures y.serverRelays[k] < |y.started| && HasRelay(y, y.started[y.serverRelays[k]].0)
    {
      if k < |x.serverRelays| && y.serverRelays[k] == x.serverRelays[k] {
        RelayStays(x, y, x.started[x.serverRelays[k]].0);
      }
    }
  }

  lemma StartSentMacs(x: Exchange, w: seq<byte>, service: seq<byte>, mode: byte, random: seq<byte>, m: Meta)
    requires MacsOk(x)
    ensures MacsOk(StartSent(x, w, service, mode, random, m))
  {
    var s, y := Stream(w, service, mode, NextId(x.ids).next, random), StartSent(x, w, service, mode, random, m);
    if Encodable(s, m) {
      var b := Bound(x.session, x.client, s, Some(m), START, 0, 1);
      assert y.started[|x.started|] == (s, m);
      assert MadeFor(y, b) && Made(y, MacInput(b));
    }
    MacsStay(x, y);
  }

  lemma StartHeardMacs(x: Exchange, on: seq<byte>, s: Stream, m: Meta, connected: bool)
    requires MacsOk(x)
    ensures MacsOk(StartHeard(x, on, s, m, connected))
  {
    var y := StartHeard(x, on, s, m, connected);
    if y.macs != x.macs {
      assert Made(x, Input(x, s, Some(m), START, 0, 1));
      MadeIs(x, Bound(x.session, x.client, s, Some(m), START, 0, 1));
      var b := if connected then Bound(x.session, x.client, s, None, READY, 1, 1)
               else Bound(x.session, x.client, s, None, FAILED, 1, 0);
      if connected {
        assert y.clientRelays[|x.clientRelays|] == (s, m);
        assert HasRelay(y, s);
      }
      assert MadeFor(y, b) && Made(y, MacInput(b));
    } else if y.clientRelays != x.clientRelays {
      assert Made(x, Input(x, s, Some(m), START, 0, 1));
      MadeIs(x, Bound(x.session, x.client, s, Some(m), START, 0, 1));
    }
    MacsStay(x, y);
  }

  lemma ReadyHeardMacs(x: Exchange, i: nat, kind: byte, ok: byte)
    requires MacsOk(x)
    ensures MacsOk(ReadyHeard(x, i, kind, ok))
  {
    var y := ReadyHeard(x, i, kind, ok);
    if y.serverRelays != x.serverRelays {
      var s := x.started[i].0;
      assert Made(x, Input(x, s, None, READY, 1, 1));
      MadeIs(x, Bound(x.session, x.client, s, None, READY, 1, 1));
      RelayStays(x, y, s);
    }
    MacsStay(x, y);
  }

  lemma {:induction false} ActsMacs(session: u64, client: seq<byte>, first: u64, acts: seq<Act>)
    requires |client| < U16_LIMIT
    ensures MacsOk(Acts(session, client, first, acts))
    decreases |acts|
  {
    if acts != [] {
      ActsMacs(session, client, first, acts[..|acts| - 1]);
      var x, a := Acts(session, client, first, acts[..|acts| - 1]), acts[|acts| - 1];
      match a
      case SendStart(w, service, mode, random, m) => StartSentMacs(x, w, service, mode, random, m);
      case HearStart(on, s, m, connected) => StartHeardMacs(x, on, s, m, connected);
      case HearReady(i, kind, ok) => ReadyHeardMacs(x, i, kind, ok);
      case _ => MacsStay(x, Act1(x, a));
    }
  }

  // ----- what is used up -----

  ghost predicate MadeBefore(x: Exchange, w: seq<byte>) { |w| == 32 && 1 <= Number(w) <= x.workSeq }

  /** No work connection carries two client relays, and none that does is idle. */
  ghost predicate WorkOnce(x: Exchange)
  {
    && (forall w :: w in x.idle ==> MadeBefore(x, w))
    && (forall i :: 0 <= i < |x.clientRelays| ==>
          MadeBefore(x, x.clientRelays[i].0.work) && x.clientRelays[i].0.work !in x.idle)
    && forall i, j :: 0 <= i < j < |x.clientRelays| ==> x.clientRelays[i].0.work != x.clientRelays[j].0.work
  }

  /** No starting stream becomes two server relays, and none that did waits. */
  ghost predicate StartedOnce(x: Exchange)
  {
    && (forall i :: i in x.waiting ==> i < |x.started|)
    && (forall k :: 0 <= k < |x.serverRelays| ==> x.serverRelays[k] < |x.started| && x.serverRelays[k] !in x.waiting)
    && forall k, l :: 0 <= k < l < |x.serverRelays| ==> x.serverRelays[k] != x.serverRelays[l]
  }

  /** Until the identifiers wrap around, started streams carry different ones. */
  ghost predicate IdsOnce(x: Exchange)
  {
    !x.ids.wrapped ==>
      && (forall i :: 0 <= i < |x.started| ==> x.started[i].0.id <= x.ids.next)
      && forall i, j :: 0 <= i < j < |x.started| ==> x.started[i].0.id != x.started[j].0.id
  }

  lemma WorkMadeOnce(x: Exchange, tail: seq<byte>)
    requires WorkOnce(x)
    ensures WorkOnce(WorkMade(x, tail))
  {
    var y := WorkMade(x, tail);
    if y != x {
      var w := U64(x.workSeq + 1) + tail;
      assert w[..8] == U64(x.workSeq + 1);
      Got64(x.workSeq + 1);
      forall i | 0 <= i < |y.clientRelays|
        ensures MadeBefore(y, y.clientRelays[i].0.work) && y.clientRelays[i].0.work !in y.idle
      {
        assert MadeBefore(x, x.clientRelays[i].0.work);
      }
      forall v | v in y.idle ensures MadeBefore(y, v) {
        if v in x.idle { assert MadeBefore(x, v); }
      }
    }
  }

  lemma {:induction false} ActsOnce(session: u64, client: seq<byte>, first: u64, acts: seq<Act>)
    requires |client| < U16_LIMIT
    ensures var x := Acts(session, client, first, acts); WorkOnce(x) && StartedOnce(x) && IdsOnce(x)
    decreases |acts|
  {
    if acts != [] {
      ActsOnce(session, client, first, acts[..|acts| - 1]);
      var x, a := Acts(session, client, first, acts[..|acts| - 1]), acts[|acts| - 1];
      match a
      case MakeWork(tail) => WorkMadeOnce(x, tail);
      case SendStart(w, service, mode, random, m) => StartSentOnce(x, w, service, mode, random, m);
      case HearStart(on, s, m, connected) => StartHeardOnce(x, on, s, m, connected);
      case HearReady(i, kind, ok) => ReadyHeardOnce(x, i, kind, ok);
      case _ =>
    }
  }

  lemma StartSentOnce(x: Exchange, w: seq<byte>, service: seq<byte>, mode: byte, random: seq<byte>, m: Meta)
    requires |x.client| < U16_LIMIT && WorkOnce(x) && StartedOnce(x) && IdsOnce(x)
    ensures var y := StartSent(x, w, service, mode, random, m); WorkOnce(y) && StartedOnce(y) && IdsOnce(y)
  {
  }

  lemma StartHeardOnce(x: Exchange, on: seq<byte>, s: Stream, m: Meta, connected: bool)
    requires |x.client| < U16_LIMIT && WorkOnce(x) && StartedOnce(x) && IdsOnce(x)
    ensures var y := StartHeard(x, on, s, m, connected); WorkOnce(y) && StartedOnce(y) && IdsOnce(y)
  {
    if on in x.idle { assert MadeBefore(x, on); }
  }

  lemma ReadyHeardOnce(x: Exchange, i: nat, kind: byte, ok: byte)
    requires |x.client| < U16_LIMIT && WorkOnce(x) && StartedOnce(x) && IdsOnce(x)
    ensures var y := ReadyHeard(x, i, kind, ok); WorkOnce(y) && StartedOnce(y) && IdsOnce(y)
  {
  }

  // ----- agreement -----

  function ServerStream(x: Exchange, k: nat): Stream
    requires k < |x.serverRelays| && x.serverRelays[k] < |x.started|
  {
    x.started[x.serverRelays[k]].0
  }

  /** Main theorem: whatever is presented as START and READY messages, a relay the client
      starts was started by the server with the same stream parameters and metadata, and a
      relay the server starts has a client relay with the same parameters; so each end's
      send key and nonce base are the other's receive ones. */
  lemma RelaysAgree(session: u64, client: seq<byte>, first: u64, acts: seq<Act>, master: Key)
    requires |client| < U16_LIMIT
    ensures var x := Acts(session, client, first, acts);
      && (forall p :: p in x.clientRelays ==> p in x.started && StreamSized(p.0))
      && (forall k :: 0 <= k < |x.serverRelays| ==>
            && x.serverRelays[k] < |x.started|
            && var s := ServerStream(x, k);
            && StreamSized(s) && (exists m: Meta :: (s, m) in x.clientRelays)
            && DeriveData(master, s, SendDir(true)) == DeriveData(master, s, RecvDir(false))
            && DeriveData(master, s, SendDir(false)) == DeriveData(master, s, RecvDir(true)))
  {
    ActsMacs(session, client, first, acts);
    var x := Acts(session, client, first, acts);
    forall p | p in x.clientRelays ensures p in x.started && StreamSized(p.0) {
      var i :| 0 <= i < |x.started| && x.started[i] == p;
    }
    forall k | 0 <= k < |x.serverRelays|
      ensures exists m: Meta :: (ServerStream(x, k), m) in x.clientRelays
    {
      assert HasRelay(x, ServerStream(x, k));
    }
  }

  /** Main theorem: a stream starts at most one relay at each end. The client's relays all
      run on different work connections, and the server's, until its identifiers wrap
      around, carry different stream identifiers. */
  lemma OneRelayPerEnd(session: u64, client: seq<byte>, first: u64, acts: seq<Act>)
    requires |client| < U16_LIMIT
    ensures var x := Acts(session, client, first, acts);
      && (forall i, j :: 0 <= i < j < |x.clientRelays| ==> x.clientRelays[i].0.work != x.clientRelays[j].0.work)
      && (forall k :: 0 <= k < |x.serverRelays| ==> x.serverRelays[k] < |x.started|)
      && (!x.ids.wrapped ==>
            forall k, l :: 0 <= k < l < |x.serverRelays| ==> ServerStream(x, k).id != ServerStream(x, l).id)
  {
    ActsOnce(session, client, first, acts);
    var x := Acts(session, client, first, acts);
    forall k, l | 0 <= k < l < |x.serverRelays| && !x.ids.wrapped
      ensures ServerStream(x, k).id != ServerStream(x, l).id
    {
      var i, j := x.serverRelays[k], x.serverRelays[l];
      assert x.started[if i < j then i else j].0.id != x.started[if i < j then j else i].0.id;
    }
  }

  lemma ActsNext(session: u64, client: seq<byte>, first: u64, acts: seq<Act>, a: Act)
    requires |client| < U16_LIMIT
    ensures Acts(session, client, first, acts + [a]) == Act1(Acts(session, client, first, acts), a)
  {
    assert (acts + [a])[..|acts|] == acts;
  }

  lemma ActsOfFour(session: u64, client: seq<byte>, first: u64, a: Act, b: Act, c: Act, d: Act)
    requires |client| < U16_LIMIT
    ensures Acts(session, client, first, [a, b, c, d])
         == Act1(Act1(Act1(Act1(Acts(session, client, first, []), a), b), c), d)
  {
    assert [] + [a] == [a] && [a] + [b] == [a, b] && [a, b] + [c] == [a, b, c] && [a, b, c] + [d] == [a, b, c, d];
    ActsNext(session, client, first, [], a);
    ActsNext(session, client, first, [a], b);
    ActsNext(session, client, first, [a, b], c);
    ActsNext(session, client, first, [a, b, c], d);
  }

  /** START and READY do bind: delivered as they were sent, they start a relay at each end,
      for every mode, PROXY mode and pair of endpoints there is. */
  lemma Completes(session: u64, client: seq<byte>, first: u64, tail: seq<byte>, service: seq<byte>, mode: byte,
                  random: seq<byte>, m: Meta)
    requires |client| < U16_LIMIT && |tail| == 24 && |service| < U16_LIMIT && |random| == 32
    requires mode <= 1 && m.proxy <= 2 && LegalEndpoint(m.source) && LegalEndpoint(m.destination)
    ensures var w := U64(1) + tail;
      var s := Stream(w, service, mode, NextId(Counter(first, false)).next, random);
      var x := Acts(session, client, first,
                    [MakeWork(tail), SendStart(w, service, mode, random, m),
                     HearStart(w, s, m, true), HearReady(0, READY, 1)]);
      x.clientRelays == [(s, m)] && x.serverRelays == [0] && x.started == [(s, m)]
  {
    var w := U64(1) + tail;
    var s := Stream(w, service, mode, NextId(Counter(first, false)).next, random);
    ActsOfFour(session, client, first, MakeWork(tail), SendStart(w, service, mode, random, m),
               HearStart(w, s, m, true), HearReady(0, READY, 1));
  }
}

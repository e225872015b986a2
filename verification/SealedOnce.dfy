/** No key and nonce seals twice: over any number of sessions, at both ends, all control
    messages and all records of all relays (src/net/net.c:482-503, src/net/relay.c:38-80,
    191-205, src/crypto/crypto_monocypher.c:392-459). */
module SealedOnce {
  import opened Bytes
  import opened Records
  import opened Handshake
  import opened StreamBinding
  import opened StreamExchange
  import opened RelaySafety
  import RelayPair
  import ControlChannel

  /** The life of one relay: the pair it was one end of, and what happened to that pair. */
  datatype RelayRun = RelayRun(pair: RelayPair.Pair, events: seq<RelayPair.Event>)

  /** One end of one session: the handshake it completed, what it sent on the control
      channel, the START and READY messages of the session, and the run of each relay that
      these started at this end, in order. */
  datatype End = End(
    isClient: bool, secret: Secret, transcript: seq<byte>,
    control: ControlChannel.Session, sends: seq<ControlChannel.Event>,
    session: u64, client: seq<byte>, first: u64, acts: seq<Act>, runs: seq<RelayRun>)

  ghost function TheExchange(e: End): Exchange
    requires |e.client| < U16_LIMIT
  {
    Acts(e.session, e.client, e.first, e.acts)
  }

  ghost predicate EndOk(e: End)
  {
    && |e.client| < U16_LIMIT
    && var x := TheExchange(e);
    && !x.ids.wrapped
    && |e.runs| == (if e.isClient then |x.clientRelays| else |x.serverRelays|)
    && forall k :: 0 <= k < |e.runs| ==> RelayPair.Start(e.runs[k].pair)
  }

  /** The stream of this end's k-th relay. */
  ghost function StreamOf(e: End, k: nat): (s: Stream)
    requires EndOk(e) && k < |e.runs|
    ensures StreamSized(s)
  {
    RelaysAgree(e.session, e.client, e.first, e.acts, Derive(e.secret, e.transcript).dataMaster);
    OneRelayPerEnd(e.session, e.client, e.first, e.acts);
    var x := TheExchange(e);
    if e.isClient then
      assert x.clientRelays[k] in x.clientRelays;
      x.clientRelays[k].0
    else
      assert x.serverRelays[k] < |x.started|;
      ServerStream(x, k)
  }

  /** What this end's k-th relay sealed. */
  ghost function RelayLog(e: End, k: nat): seq<Sealed>
    requires k < |e.runs|
  {
    var p := RelayPair.Run(e.runs[k].pair, e.runs[k].events);
    if e.isClient then p.client.tx.sealed else p.server.tx.sealed
  }

  ghost function ControlLog(e: End): seq<Sealed> { ControlChannel.LinkRun(e.control, e.sends).tx.log }

  /** One act of sealing: a control message or a record of a relay. */
  datatype Place = InControl(end: nat, record: nat) | InRelay(end: nat, relay: nat, record: nat)

  ghost predicate EndsOk(ends: seq<End>) { forall i :: 0 <= i < |ends| ==> EndOk(ends[i]) }

  ghost predicate Occurs(ends: seq<End>, p: Place)
  {
    && p.end < |ends|
    && match p
       case InControl(i, n) => n < |ControlLog(ends[i])|
       case InRelay(i, k, n) => k < |ends[i].runs| && n < |RelayLog(ends[i], k)|
  }

  ghost function EntryAt(ends: seq<End>, p: Place): Sealed
    requires Occurs(ends, p)
  {
    match p
    case InControl(i, n) => ControlLog(ends[i])[n]
    case InRelay(i, k, n) => RelayLog(ends[i], k)[n]
  }

  /** The key and nonce base in use there. */
  ghost function KeysAt(ends: seq<End>, p: Place): (Key, Key)
    requires EndsOk(ends) && Occurs(ends, p)
  {
    var e := ends[p.end];
    var keys := Derive(e.secret, e.transcript);
    match p
    case InControl(_, _) => SendKey(e.isClient, keys)
    case InRelay(_, k, _) => DeriveData(keys.dataMaster, StreamOf(e, k), SendDir(e.isClient))
  }

  /** Each run of one side draws fresh random numbers, so its transcript is its own. */
  ghost predicate OwnTranscripts(ends: seq<End>)
  {
    forall i, j :: 0 <= i < j < |ends| && ends[i].isClient == ends[j].isClient ==>
                     ends[i].transcript != ends[j].transcript
  }

  // ----- the numbers -----

  lemma RelayNumbers(e: End, k: nat, n: nat)
    requires EndOk(e) && k < |e.runs| && n < |RelayLog(e, k)|
    ensures RelayLog(e, k)[n].seqno == n + 1 < U64_LIMIT
  {
    var r := e.runs[k];
    RelayPair.RunHolds(r.pair, r.events);
    var p := RelayPair.Run(r.pair, r.events);
    var t, cap := if e.isClient then p.client.tx else p.server.tx, if e.isClient then p.client.cap else p.server.cap;
    assert Sealing(t, cap);
    assert Framed(t.sealed[n], n + 1, RelaySpec.Chunk(cap));
  }

  /** One relay at a time: in no run of a pair does either end seal twice under one nonce. */
  lemma RelayRunsNoncesDistinct(p: RelayPair.Pair, events: seq<RelayPair.Event>, base: seq<byte>)
    requires RelayPair.Start(p) && |base| == 16
    ensures var q := RelayPair.Run(p, events);
      ControlChannel.NoncesDistinct(base, q.client.tx.sealed) && ControlChannel.NoncesDistinct(base, q.server.tx.sealed)
  {
    RelayPair.RunHolds(p, events);
    var q := RelayPair.Run(p, events);
    ControlChannel.RelayNoncesDistinct(q.client.tx.sealed, RelaySpec.Chunk(q.client.cap), base);
    ControlChannel.RelayNoncesDistinct(q.server.tx.sealed, RelaySpec.Chunk(q.server.cap), base);
  }

  /** Within one run the number determines the act. */
  lemma NumberIsPlace(ends: seq<End>, p: Place, q: Place)
    requires EndsOk(ends) && Occurs(ends, p) && Occurs(ends, q)
    requires p.end == q.end && p.InControl? == q.InControl? && (p.InRelay? ==> p.relay == q.relay)
    requires EntryAt(ends, p).seqno == EntryAt(ends, q).seqno
    ensures p == q
  {
    var e := ends[p.end];
    if p.InControl? {
      ControlChannel.LinkHolds(e.control, e.sends);
    } else {
      RelayNumbers(e, p.relay, p.record);
      RelayNumbers(e, q.relay, q.record);
    }
  }

  // ----- the keys -----

  lemma StreamsDiffer(e: End, k: nat, l: nat)
    requires EndOk(e) && k < |e.runs| && l < |e.runs| && k != l
    ensures StreamOf(e, k) != StreamOf(e, l)
  {
    OneRelayPerEnd(e.session, e.client, e.first, e.acts);
    var x, i, j := TheExchange(e), if k < l then k else l, if k < l then l else k;
    if e.isClient {
      assert x.clientRelays[i].0.work != x.clientRelays[j].0.work;
    } else {
      assert ServerStream(x, i).id != ServerStream(x, j).id;
    }
  }

  /** Equal keys belong to the control channel of one end, or to one relay of one end. */
  lemma KeyIsRun(ends: seq<End>, p: Place, q: Place)
    requires EndsOk(ends) && OwnTranscripts(ends) && Occurs(ends, p) && Occurs(ends, q)
    requires KeysAt(ends, p).0 == KeysAt(ends, q).0
    ensures p.end == q.end && p.InControl? == q.InControl? && (p.InRelay? ==> p.relay == q.relay)
  {
    var d, e := ends[p.end], ends[q.end];
    if p.InRelay? && q.InRelay? && p.end == q.end && p.relay != q.relay {
      StreamsDiffer(d, p.relay, q.relay);
      DataKeysDistinct(Derive(d.secret, d.transcript).dataMaster, StreamOf(d, p.relay), SendDir(d.isClient),
                       Derive(d.secret, d.transcript).dataMaster, StreamOf(d, q.relay), SendDir(d.isClient));
    }
  }

  /** Main theorem: in any number of sessions, over any runs of their control channels and of
      all the relays they start, at both ends, no two messages or records are sealed under
      the same key and nonce. `bytes` is the nonce base as the 16 bytes derived for it. */
  lemma NothingSealedTwice(ends: seq<End>, bytes: Key -> seq<byte>, p: Place, q: Place)
    requires EndsOk(ends) && OwnTranscripts(ends) && forall k: Key :: |bytes(k)| == 16
    requires Occurs(ends, p) && Occurs(ends, q) && p != q
    ensures EntryAt(ends, p).seqno < U64_LIMIT && EntryAt(ends, q).seqno < U64_LIMIT
    ensures (KeysAt(ends, p).0, ControlChannel.Nonce(bytes(KeysAt(ends, p).1), EntryAt(ends, p).seqno))
         != (KeysAt(ends, q).0, ControlChannel.Nonce(bytes(KeysAt(ends, q).1), EntryAt(ends, q).seqno))
  {
    NumbersFit(ends, p);
    NumbersFit(ends, q);
    if KeysAt(ends, p).0 == KeysAt(ends, q).0 {
      KeyIsRun(ends, p, q);
      var base := bytes(KeysAt(ends, p).1);
      var a, b := EntryAt(ends, p).seqno, EntryAt(ends, q).seqno;
      if ControlChannel.Nonce(base, a) == ControlChannel.Nonce(base, b) {
        ControlChannel.NonceInjective(base, a, b);
        NumberIsPlace(ends, p, q);
      }
    }
  }

  lemma NumbersFit(ends: seq<End>, p: Place)
    requires EndsOk(ends) && Occurs(ends, p)
    ensures EntryAt(ends, p).seqno < U64_LIMIT
  {
    var e := ends[p.end];
    if p.InControl? {
      ControlChannel.LinkHolds(e.control, e.sends);
      var l := ControlChannel.LinkRun(e.control, e.sends);
      assert ControlChannel.SealedFor(e.control, l.tx.log[p.record], l.tx.numbered);
    } else {
      RelayNumbers(e, p.relay, p.record);
    }
  }
}

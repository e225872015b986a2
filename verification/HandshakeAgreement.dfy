/** Whoever completes the handshake agrees with the other side on everything
    (src/net/net.c:574-742). Any number of clients and servers run, and every message on
    the network may be anything at all. */
module HandshakeAgreement {
  import opened Bytes
  import opened Protocol
  import opened Handshake

  ghost predicate Wide(fp: nat -> seq<byte>) { forall k: nat :: |fp(k)| == 32 }

  ghost predicate HasServer(w: World, key: nat, t: seq<byte>)
  {
    exists j :: 0 <= j < |w.servers| && w.servers[j].cfg.identity == key && Transcript(w.servers[j].facts) == t
  }

  ghost predicate HasClient(w: World, key: nat, t: seq<byte>)
  {
    exists i :: 0 <= i < |w.clients| && w.clients[i].done.Some?
      && w.clients[i].cfg.identity == key && Transcript(w.clients[i].done.value.0) == t
  }

  ghost predicate ClientOk(w: World, c: Client)
  {
    && LegalHello(c.hello) && c.hello.id == c.cfg.id
    && (c.complete ==> c.done.Some? && HasSealer(w, ReceiveKey(true, c.done.value.1)))
    && (c.done.Some? ==>
          var f, t := c.done.value.0, Transcript(c.done.value.0);
          && Sized(f) && f.hello == HelloBytes(c.hello)
          && c.done.value.1 == Derive(Shared(c.hello.ephemeral, f.serverEphemeral), t)
          && HasServer(w, c.cfg.serverKey, t))
  }

  ghost predicate ServerOk(w: World, s: Server)
  {
    && Sized(s.facts)
    && ParseHello(s.facts.hello, s.cfg.maxId).Some?
    && ParseHello(s.facts.hello, s.cfg.maxId).value.0 == s.clientId
    && (s.keys.Some? ==>
          var t := Transcript(s.facts);
          && HasClient(w, s.clientKey, t)
          && PeerEphemeral(t, s.clientId).Some?
          && s.keys.value == Derive(Shared(s.facts.serverEphemeral, PeerEphemeral(t, s.clientId).value), t))
  }

  /** A server run that has completed seals under this key. */
  ghost predicate HasSealer(w: World, k: (Key, Key))
  {
    exists j :: 0 <= j < |w.servers| && w.servers[j].keys.Some? && SendKey(false, w.servers[j].keys.value) == k
  }

  ghost predicate SignatureOk(w: World, g: Signature)
  {
    match g.role
    case ServerRole => HasServer(w, g.key, g.digest.message)
    case ClientRole => HasClient(w, g.key, g.digest.message)
  }

  ghost predicate WorldOk(w: World)
  {
    && (forall i {:trigger ClientOk(w, w.clients[i])} :: 0 <= i < |w.clients| ==> ClientOk(w, w.clients[i]))
    && (forall j {:trigger ServerOk(w, w.servers[j])} :: 0 <= j < |w.servers| ==> ServerOk(w, w.servers[j]))
    && (forall g {:trigger SignatureOk(w, g)} :: g in w.signed ==> SignatureOk(w, g))
    && (forall k {:trigger HasSealer(w, k)} :: k in w.oks ==> HasSealer(w, k))
  }

  /** Runs are only added or advanced, so what exists goes on existing. */
  ghost predicate Extends(w: World, v: World)
  {
    && |w.clients| <= |v.clients| && |w.servers| <= |v.servers|
    && (forall i :: 0 <= i < |w.clients| && w.clients[i].done.Some? ==>
          v.clients[i].done == w.clients[i].done && v.clients[i].cfg == w.clients[i].cfg)
    && (forall j :: 0 <= j < |w.servers| ==>
          && v.servers[j].facts == w.servers[j].facts && v.servers[j].cfg == w.servers[j].cfg
          && (w.servers[j].keys.Some? ==> v.servers[j].keys == w.servers[j].keys))
  }

  lemma HasStays(w: World, v: World, key: nat, t: seq<byte>)
    requires Extends(w, v)
    ensures HasServer(w, key, t) ==> HasServer(v, key, t)
    ensures HasClient(w, key, t) ==> HasClient(v, key, t)
  {
    if HasServer(w, key, t) {
      var j :| 0 <= j < |w.servers| && w.servers[j].cfg.identity == key && Transcript(w.servers[j].facts) == t;
      assert v.servers[j].cfg.identity == key;
    }
    if HasClient(w, key, t) {
      var i :| 0 <= i < |w.clients| && w.clients[i].done.Some?
        && w.clients[i].cfg.identity == key && Transcript(w.clients[i].done.value.0) == t;
      assert v.clients[i].done == w.clients[i].done && v.clients[i].cfg == w.clients[i].cfg;
    }
  }

  lemma SealerStays(w: World, v: World, k: (Key, Key))
    requires Extends(w, v) && HasSealer(w, k)
    ensures HasSealer(v, k)
  {
    var j :| 0 <= j < |w.servers| && w.servers[j].keys.Some? && SendKey(false, w.servers[j].keys.value) == k;
    assert v.servers[j].keys == w.servers[j].keys;
  }

  lemma ClientStays(w: World, v: World, c: Client)
    requires ClientOk(w, c) && Extends(w, v)
    ensures ClientOk(v, c)
  {
    if c.done.Some? { HasStays(w, v, c.cfg.serverKey, Transcript(c.done.value.0)); }
    if c.complete { SealerStays(w, v, ReceiveKey(true, c.done.value.1)); }
  }

  lemma ServerStays(w: World, v: World, s: Server)
    requires ServerOk(w, s) && Extends(w, v)
    ensures ServerOk(v, s)
  {
    if s.keys.Some? { HasStays(w, v, s.clientKey, Transcript(s.facts)); }
  }

  lemma SignatureStays(w: World, v: World, g: Signature)
    requires SignatureOk(w, g) && Extends(w, v)
    ensures SignatureOk(v, g)
  {
    HasStays(w, v, g.key, g.digest.message);
  }

  /** Enough to re-establish the invariant: everything in the new world is old, or ok. */
  lemma OkAfter(w: World, v: World)
    requires WorldOk(w) && Extends(w, v)
    requires forall i :: 0 <= i < |v.clients| ==>
               (i < |w.clients| && v.clients[i] == w.clients[i]) || ClientOk(v, v.clients[i])
    requires forall j :: 0 <= j < |v.servers| ==>
               (j < |w.servers| && v.servers[j] == w.servers[j]) || ServerOk(v, v.servers[j])
    requires forall g :: g in v.signed ==> g in w.signed || SignatureOk(v, g)
    requires forall k :: k in v.oks ==> k in w.oks || HasSealer(v, k)
    ensures WorldOk(v)
  {
    forall i | 0 <= i < |v.clients| ensures ClientOk(v, v.clients[i]) {
      if i < |w.clients| && v.clients[i] == w.clients[i] { ClientStays(w, v, w.clients[i]); }
    }
    forall j | 0 <= j < |v.servers| ensures ServerOk(v, v.servers[j]) {
      if j < |w.servers| && v.servers[j] == w.servers[j] { ServerStays(w, v, w.servers[j]); }
    }
    forall g | g in v.signed ensures SignatureOk(v, g) {
      if g in w.signed { SignatureStays(w, v, g); }
    }
    forall k | k in v.oks ensures HasSealer(v, k) {
      if k in w.oks { SealerStays(w, v, k); }
    }
  }

  lemma StartsOk(w: World, cfg: ClientConfig, random: seq<byte>, ephemeral: seq<byte>)
    requires WorldOk(w)
    ensures WorldOk(Starts(w, cfg, random, ephemeral))
  {
    OkAfter(w, Starts(w, cfg, random, ephemeral));
  }

  lemma HelloOk(w: World, fp: nat -> seq<byte>, cfg: ServerConfig, ch: seq<byte>, sr: seq<byte>, own: seq<byte>)
    requires WorldOk(w) && Wide(fp)
    ensures WorldOk(Hears(w, fp, cfg, ch, sr, own))
  {
    var v := Hears(w, fp, cfg, ch, sr, own);
    if v != w {
      var s := v.servers[|w.servers|];
      assert HasServer(v, cfg.identity, Transcript(s.facts));
      OkAfter(w, v);
    }
  }

  lemma RepliesOk(w: World, fp: nat -> seq<byte>, i: nat, sr: seq<byte>, ep: seq<byte>, cipher: byte)
    requires WorldOk(w) && Wide(fp)
    ensures WorldOk(Replies(w, fp, i, sr, ep, cipher))
  {
    var v := Replies(w, fp, i, sr, ep, cipher);
    if v != w {
      var c := w.clients[i];
      var f := FactsOf(c, fp, sr, ep, cipher);
      assert ClientOk(w, c);
      assert SignatureOk(w, Signature(c.cfg.serverKey, ServerRole, Hash(Transcript(f))));
      assert Extends(w, v);
      HasStays(w, v, c.cfg.serverKey, Transcript(f));
      assert v.clients[i].done.value.0 == f;
      assert HasClient(v, c.cfg.identity, Transcript(f));
      OkAfter(w, v);
    }
  }

  lemma AuthServerOk(w: World, v: World, j: nat)
    requires WorldOk(w) && v == HearsAuth(w, j) && v != w
    ensures Extends(w, v) && ServerOk(v, v.servers[j]) && HasSealer(v, SendKey(false, v.servers[j].keys.value))
  {
    var s := w.servers[j];
    assert ServerOk(w, s);
    assert SignatureOk(w, Signature(s.clientKey, ClientRole, Hash(Transcript(s.facts))));
    assert Extends(w, v);
    HasStays(w, v, s.clientKey, Transcript(s.facts));
  }

  lemma HearsAuthOk(w: World, j: nat)
    requires WorldOk(w)
    ensures WorldOk(HearsAuth(w, j))
  {
    var v := HearsAuth(w, j);
    if v != w {
      AuthServerOk(w, v, j);
      OkAfter(w, v);
    }
  }

  lemma CompleteClientOk(w: World, v: World, i: nat)
    requires WorldOk(w) && v == HearsOk(w, i) && v != w
    ensures Extends(w, v) && ClientOk(v, v.clients[i])
  {
    var c := w.clients[i];
    assert ClientOk(w, c);
    assert Extends(w, v);
    ClientStays(w, v, c);
    SealerStays(w, v, ReceiveKey(true, c.done.value.1));
  }

  lemma HearsOkOk(w: World, i: nat)
    requires WorldOk(w)
    ensures WorldOk(HearsOk(w, i))
  {
    var v := HearsOk(w, i);
    if v != w {
      CompleteClientOk(w, v, i);
      OkAfter(w, v);
    }
  }

  lemma {:induction false} HistoryOk(fp: nat -> seq<byte>, events: seq<Event>)
    requires Wide(fp)
    ensures WorldOk(History(fp, events))
    decreases |events|
  {
    if events != [] {
      var w := History(fp, events[..|events| - 1]);
      HistoryOk(fp, events[..|events| - 1]);
      match events[|events| - 1]
      case ClientStarts(cfg, random, ephemeral) => StartsOk(w, cfg, random, ephemeral);
      case ServerHears(cfg, ch, sr, own) => HelloOk(w, fp, cfg, ch, sr, own);
      case ClientHears(i, sr, ep, cipher) => RepliesOk(w, fp, i, sr, ep, cipher);
      case ServerHearsAuth(j) => HearsAuthOk(w, j);
      case ClientHearsOk(i) => HearsOkOk(w, i);
    }
  }

  // ----- agreement -----

  /** A client run and a server run with one transcript: same facts, same client id and
      cipher, and the key each would derive is the other's. */
  lemma SameTranscript(w: World, c: Client, s: Server)
    requires ClientOk(w, c) && c.done.Some? && ServerOk(w, s)
    requires Transcript(c.done.value.0) == Transcript(s.facts)
    ensures c.done.value.0 == s.facts
    ensures s.clientId == c.cfg.id
    ensures PeerEphemeral(Transcript(s.facts), s.clientId) == Some(c.hello.ephemeral)
    ensures c.done.value.1 == Derive(Shared(s.facts.serverEphemeral, c.hello.ephemeral), Transcript(s.facts))
  {
    TranscriptInjective(c.done.value.0, s.facts);
    ParsedIsHello(c.hello, s.cfg.maxId);
    PeerEphemeralIsClients(s.facts, c.hello);
    SharedCommutes(s.facts.serverEphemeral, c.hello.ephemeral);
  }

  /** Everything two ends can agree on, and their directional keys crossed. */
  ghost predicate Agree(c: Client, s: Server, number: Key -> u64)
  {
    && c.done.Some? && s.keys.Some?
    && c.done.value.0 == s.facts && c.cfg.id == s.clientId && c.done.value.0.cipher == s.facts.cipher
    && SessionId(c.done.value.1, number) == SessionId(s.keys.value, number)
    && SendKey(true, c.done.value.1) == ReceiveKey(false, s.keys.value)
    && SendKey(false, s.keys.value) == ReceiveKey(true, c.done.value.1)
    && c.done.value.1 == s.keys.value
  }

  /** Main theorem: in every history, a server run that completed has a client run, by the
      holder of the authorized key, that agrees with it on everything. */
  lemma ServerAgrees(fp: nat -> seq<byte>, events: seq<Event>, number: Key -> u64, j: nat) returns (i: nat)
    requires Wide(fp)
    requires j < |History(fp, events).servers| && History(fp, events).servers[j].keys.Some?
    ensures i < |History(fp, events).clients|
    ensures var w := History(fp, events);
      w.clients[i].cfg.identity == w.servers[j].clientKey && Agree(w.clients[i], w.servers[j], number)
  {
    var w := History(fp, events);
    HistoryOk(fp, events);
    var s := w.servers[j];
    assert ServerOk(w, s);
    i :| 0 <= i < |w.clients| && w.clients[i].done.Some?
      && w.clients[i].cfg.identity == s.clientKey && Transcript(w.clients[i].done.value.0) == Transcript(s.facts);
    SameTranscript(w, w.clients[i], s);
  }

  /** Main theorem: a client run that accepted SERVER_HELLO has a server run, by the holder
      of the configured server key, with its transcript, client id and cipher; and if that
      server run completes, the two agree on everything. */
  lemma ClientAgrees(fp: nat -> seq<byte>, events: seq<Event>, number: Key -> u64, i: nat) returns (j: nat)
    requires Wide(fp)
    requires i < |History(fp, events).clients| && History(fp, events).clients[i].done.Some?
    ensures j < |History(fp, events).servers|
    ensures var w := History(fp, events); var c, s := w.clients[i], w.servers[j];
      && s.cfg.identity == c.cfg.serverKey
      && s.facts == c.done.value.0 && s.clientId == c.cfg.id
      && (s.keys.Some? ==> Agree(c, s, number))
  {
    var w := History(fp, events);
    HistoryOk(fp, events);
    var c := w.clients[i];
    assert ClientOk(w, c);
    j :| 0 <= j < |w.servers| && w.servers[j].cfg.identity == c.cfg.serverKey
      && Transcript(w.servers[j].facts) == Transcript(c.done.value.0);
    assert ServerOk(w, w.servers[j]);
    SameTranscript(w, c, w.servers[j]);
  }

  /** The configured server key shares its fingerprint with no other key. */
  ghost predicate NoCollision(fp: nat -> seq<byte>, key: nat) { forall k: nat :: fp(k) == fp(key) ==> k == key }

  lemma {:induction false} IdentityIs(fp: nat -> seq<byte>, events: seq<Event>, j: nat)
    requires j < |History(fp, events).servers|
    ensures var s := History(fp, events).servers[j]; s.facts.serverIdentity == fp(s.cfg.identity)
    decreases |events|
  {
    var before := events[..|events| - 1];
    if j < |History(fp, before).servers| { IdentityIs(fp, before, j); }
  }

  /** Equal server-to-client control keys come from equal transcripts. */
  lemma ControlKeyIs(a: Secret, s: seq<byte>, b: Secret, t: seq<byte>)
    requires SendKey(false, Derive(a, s)) == ReceiveKey(true, Derive(b, t))
    ensures s == t
  {
  }

  /** Main theorem: a client run that has accepted AUTH_OK has a server run, by the holder of
      the configured server key, that has completed, and the two agree on everything. */
  lemma ClientCompletes(fp: nat -> seq<byte>, events: seq<Event>, number: Key -> u64, i: nat) returns (j: nat)
    requires Wide(fp)
    requires i < |History(fp, events).clients| && History(fp, events).clients[i].complete
    requires NoCollision(fp, History(fp, events).clients[i].cfg.serverKey)
    ensures j < |History(fp, events).servers|
    ensures var w := History(fp, events);
      w.servers[j].cfg.identity == w.clients[i].cfg.serverKey && Agree(w.clients[i], w.servers[j], number)
  {
    var w := History(fp, events);
    HistoryOk(fp, events);
    var c := w.clients[i];
    assert ClientOk(w, c);
    j :| 0 <= j < |w.servers| && w.servers[j].keys.Some?
      && SendKey(false, w.servers[j].keys.value) == ReceiveKey(true, c.done.value.1);
    var s := w.servers[j];
    assert ServerOk(w, s);
    var peer := PeerEphemeral(Transcript(s.facts), s.clientId).value;
    ControlKeyIs(Shared(s.facts.serverEphemeral, peer), Transcript(s.facts),
                 Shared(c.hello.ephemeral, c.done.value.0.serverEphemeral), Transcript(c.done.value.0));
    SameTranscript(w, c, s);
    IdentityIs(fp, events, j);
    FactsAre(fp, events, i);
  }

  /** The server identity in a client's facts is that of its configured server key. */
  ghost predicate NamesServer(fp: nat -> seq<byte>, c: Client)
  {
    c.done.Some? ==> c.done.value.0.serverIdentity == fp(c.cfg.serverKey)
  }

  lemma NamesKept(fp: nat -> seq<byte>, w: World, e: Event, i: nat)
    requires i < |Happens(w, fp, e).clients| && (i < |w.clients| ==> NamesServer(fp, w.clients[i]))
    ensures NamesServer(fp, Happens(w, fp, e).clients[i])
  {
  }

  lemma {:induction false} FactsAre(fp: nat -> seq<byte>, events: seq<Event>, i: nat)
    requires i < |History(fp, events).clients|
    ensures NamesServer(fp, History(fp, events).clients[i])
    decreases |events|
  {
    var before := events[..|events| - 1];
    if i < |History(fp, before).clients| { FactsAre(fp, before, i); }
    NamesKept(fp, History(fp, before), events[|events| - 1], i);
  }

  /** The control keys of the two directions differ, as do those of any two sessions with
      different transcripts: every sealing key belongs to one direction of one session. */
  lemma ControlKeysDistinct(a: Secret, s: seq<byte>, b: Secret, t: seq<byte>)
    ensures Derive(a, s).controlC2s != Derive(b, t).controlS2c
    ensures s != t ==> Derive(a, s).controlC2s != Derive(b, t).controlC2s
    ensures s != t ==> Derive(a, s).controlS2c != Derive(b, t).controlS2c
  {
  }

  // ----- completion -----

  /** The messages of one client and one server delivered as they were sent. */
  function Undisturbed(cc: ClientConfig, sc: ServerConfig, random: seq<byte>, ephemeral: seq<byte>,
                       sr: seq<byte>, own: seq<byte>): seq<Event>
    requires |cc.id| < U16_LIMIT
  {
    [ClientStarts(cc, random, ephemeral),
     ServerHears(sc, HelloBytes(Hello(cc.id, random, ephemeral, cc.mask)), sr, own),
     ClientHears(0, sr, own, CHACHA),
     ServerHearsAuth(0),
     ClientHearsOk(0)]
  }

  lemma HistoryAppend(fp: nat -> seq<byte>, events: seq<Event>, e: Event)
    ensures History(fp, events + [e]) == Happens(History(fp, events), fp, e)
  {
    assert (events + [e])[..|events|] == events;
  }

  lemma HistoryOfFive(fp: nat -> seq<byte>, a: Event, b: Event, c: Event, d: Event, e: Event)
    ensures History(fp, [a, b, c, d, e]) == Happens(Happens(Happens(Happens(Happens(
              World([], [], {}, {}), fp, a), fp, b), fp, c), fp, d), fp, e)
  {
    assert History(fp, []) == World([], [], {}, {});
    assert [] + [a] == [a] && [a] + [b] == [a, b] && [a, b] + [c] == [a, b, c] && [a, b, c] + [d] == [a, b, c, d];
    assert [a, b, c, d] + [e] == [a, b, c, d, e];
    HistoryAppend(fp, [], a);
    HistoryAppend(fp, [a], b);
    HistoryAppend(fp, [a, b], c);
    HistoryAppend(fp, [a, b, c], d);
    HistoryAppend(fp, [a, b, c, d], e);
  }

  /** The handshake does complete: for an authorized client that knows the server's key,
      undisturbed, both ends complete exactly when both allow the compiled cipher. */
  lemma CompletesIff(fp: nat -> seq<byte>, cc: ClientConfig, sc: ServerConfig, random: seq<byte>,
                     ephemeral: seq<byte>, sr: seq<byte>, own: seq<byte>)
    requires Wide(fp) && |random| == 32 && |ephemeral| == 32 && |sr| == 32 && |own| == 32
    requires |cc.id| < U16_LIMIT && NulFree(cc.id) && |cc.id| <= sc.maxId
    requires cc.id in sc.authorized && sc.authorized[cc.id] == cc.identity && cc.serverKey == sc.identity
    ensures var w := History(fp, Undisturbed(cc, sc, random, ephemeral, sr, own));
      && |w.clients| == 1
      && (Offers(cc.mask, CHACHA) && Offers(sc.mask, CHACHA) <==>
            |w.servers| == 1 && w.servers[0].keys.Some? && w.clients[0].complete)
  {
    var h := Hello(cc.id, random, ephemeral, cc.mask);
    var es := Undisturbed(cc, sc, random, ephemeral, sr, own);
    HistoryOfFive(fp, es[0], es[1], es[2], es[3], es[4]);
    ParsedHello(h, sc.maxId);
    var w1 := Starts(World([], [], {}, {}), cc, random, ephemeral);
    var w2 := Hears(w1, fp, sc, HelloBytes(h), sr, own);
    if Offers(cc.mask, CHACHA) && Offers(sc.mask, CHACHA) {
      var f := FactsOf(w2.clients[0], fp, sr, own, CHACHA);
      assert w2.servers == [Server(sc, cc.id, cc.identity, f, None)];
      PeerEphemeralIsClients(f, h);
      SharedCommutes(ephemeral, own);
    }
  }
}

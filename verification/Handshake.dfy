/** The authenticated handshake (src/net/net.c:531-742) and the session key schedule
    (src/crypto/crypto_monocypher.c:386-413), over symbolic cryptography: the hash is a
    term of its input, a signature verifies only if its owner made it, and a shared secret
    is named by the two public keys it joins, so that both sides name it alike. */
module Handshake {
  import opened Bytes
  import opened Protocol

  // ----- symbolic cryptography -----

  datatype Digest = Hash(message: seq<byte>)
  datatype Secret = Secret(publics: set<seq<byte>>)
  /** What a key is derived from: an agreed secret, or the data master key. */
  datatype Material = Agreed(secret: Secret) | Master(key: Key)
  datatype Purpose =
    | ControlC2s | ControlS2c | NonceC2s | NonceS2c | WorkAuth | StreamAuth | SessionNumber | DataMaster
    | DataC2s | DataS2c | DataNonceC2s | DataNonceS2c
  datatype Key = Kdf(material: Material, salt: Digest, purpose: Purpose)

  /** The label ct_crypto_kdf mixes in. */
  function Label(p: Purpose): string
  {
    match p
    case ControlC2s => "ctunnel-v3/control-c2s-key"
    case ControlS2c => "ctunnel-v3/control-s2c-key"
    case NonceC2s => "ctunnel-v3/control-c2s-nonce"
    case NonceS2c => "ctunnel-v3/control-s2c-nonce"
    case WorkAuth => "ctunnel-v3/work-auth"
    case StreamAuth => "ctunnel-v3/stream-auth"
    case SessionNumber => "ctunnel-v3/session-id"
    case DataMaster => "ctunnel-v3/data-master"
    case DataC2s => "ctunnel-v3/data-stream-c2s-key"
    case DataS2c => "ctunnel-v3/data-stream-s2c-key"
    case DataNonceC2s => "ctunnel-v3/data-stream-c2s-nonce"
    case DataNonceS2c => "ctunnel-v3/data-stream-s2c-nonce"
  }

  /** No label serves two purposes. */
  lemma LabelsDistinct(p: Purpose, q: Purpose)
    requires Label(p) == Label(q)
    ensures p == q
  {
    var x, y := Label(p), Label(q);
    assert x[11] == y[11] && |x| == |y|;
    if |x| >= 26 { assert x[19] == y[19]; }
    if |x| >= 30 { assert x[23] == y[23]; }
  }

  /** ct_x_shared: my public key stands for my private one. */
  function Shared(mine: seq<byte>, theirs: seq<byte>): Secret { Secret({mine, theirs}) }

  lemma SharedCommutes(a: seq<byte>, b: seq<byte>)
    ensures Shared(a, b) == Shared(b, a)
  {
  }

  datatype SessionKeys = SessionKeys(
    controlC2s: Key, controlS2c: Key, nonceC2s: Key, nonceS2c: Key,
    workAuth: Key, streamAuth: Key, sessionKey: Key, dataMaster: Key)

  /** ct_derive_session. */
  function Derive(secret: Secret, transcript: seq<byte>): SessionKeys
  {
    var salt := Hash(transcript);
    var m := Agreed(secret);
    SessionKeys(Kdf(m, salt, ControlC2s), Kdf(m, salt, ControlS2c), Kdf(m, salt, NonceC2s), Kdf(m, salt, NonceS2c),
                Kdf(m, salt, WorkAuth), Kdf(m, salt, StreamAuth), Kdf(m, salt, SessionNumber), Kdf(m, salt, DataMaster))
  }

  /** The key and nonce base ct_control_send and ct_control_recv pick. */
  function SendKey(isClient: bool, k: SessionKeys): (Key, Key)
  {
    if isClient then (k.controlC2s, k.nonceC2s) else (k.controlS2c, k.nonceS2c)
  }
  function ReceiveKey(isClient: bool, k: SessionKeys): (Key, Key)
  {
    if isClient then (k.controlS2c, k.nonceS2c) else (k.controlC2s, k.nonceC2s)
  }

  /** The 64-bit session id read from derived bytes, zero replaced by one. */
  function SessionId(k: SessionKeys, number: Key -> u64): u64
  {
    if number(k.sessionKey) == 0 then 1 else number(k.sessionKey)
  }

  // ----- transcript -----

  /** "ctunnel-handshake-v3" */
  const DOMAIN: seq<byte> :=
    [99, 116, 117, 110, 110, 101, 108, 45, 104, 97, 110, 100, 115, 104, 97, 107, 101, 45, 118, 51]

  const PREFIX: nat := 25
  const CHACHA: byte := 1

  function Preamble(): (p: seq<byte>)
    ensures |p| == PREFIX
  {
    DOMAIN + U32(MAGIC) + [VERSION]
  }

  datatype Facts = Facts(hello: seq<byte>, serverRandom: seq<byte>, serverEphemeral: seq<byte>,
                         cipher: byte, clientIdentity: seq<byte>, serverIdentity: seq<byte>)

  ghost predicate Sized(f: Facts)
  {
    |f.serverRandom| == 32 && |f.serverEphemeral| == 32 && |f.clientIdentity| == 32 && |f.serverIdentity| == 32
  }

  function Transcript(f: Facts): seq<byte>
  {
    Preamble() + f.hello + f.serverRandom + f.serverEphemeral + [f.cipher]
    + f.clientIdentity + f.serverIdentity
  }

  lemma TranscriptParts(f: Facts)
    requires Sized(f)
    ensures var t := Transcript(f); var n := |f.hello|;
      && |t| == PREFIX + n + 129
      && t[PREFIX..PREFIX + n] == f.hello
      && t[PREFIX + n..PREFIX + n + 32] == f.serverRandom
      && t[PREFIX + n + 32..PREFIX + n + 64] == f.serverEphemeral
      && t[PREFIX + n + 64] == f.cipher
      && t[PREFIX + n + 65..PREFIX + n + 97] == f.clientIdentity
      && t[PREFIX + n + 97..] == f.serverIdentity
  {
  }

  /** The encoding is injective: equal transcripts mean equal facts. */
  lemma TranscriptInjective(f: Facts, g: Facts)
    requires Sized(f) && Sized(g) && Transcript(f) == Transcript(g)
    ensures f == g
  {
    TranscriptParts(f);
    TranscriptParts(g);
  }

  // ----- client hello -----

  datatype Hello = Hello(id: seq<byte>, random: seq<byte>, ephemeral: seq<byte>, offered: u32)

  /** A C string, and two fixed fields. */
  ghost predicate LegalHello(h: Hello)
  {
    |h.id| < U16_LIMIT && NulFree(h.id) && |h.random| == 32 && |h.ephemeral| == 32
  }

  function HelloBytes(h: Hello): seq<byte>
    requires |h.id| < U16_LIMIT
  {
    Str(h.id) + h.random + h.ephemeral + U32(h.offered)
  }

  /** What the server takes from CLIENT_HELLO: the id as it will compare it. */
  function ParseHello(ch: seq<byte>, maxId: nat): Option<(seq<byte>, u32)>
  {
    var s := UnpackString(ch, 0, maxId + 1);
    if s.None? || |ch| - s.value.1 != 68 then None
    else Some((CString(s.value.0), GetU32(ch[s.value.1 + 64..])))
  }

  lemma ParsedHello(h: Hello, maxId: nat)
    requires LegalHello(h) && |h.id| <= maxId
    ensures ParseHello(HelloBytes(h), maxId) == Some((h.id, h.offered))
  {
    var rest := h.random + h.ephemeral + U32(h.offered);
    assert HelloBytes(h) == [] + Str(h.id) + rest;
    UnpackPacked([], h.id, rest, maxId + 1);
    CStringWhole(h.id);
    assert HelloBytes(h)[2 + |h.id| + 64..] == U32(h.offered);
    Got32(h.offered);
  }

  /** The server re-reads the peer's ephemeral key from its transcript, at an offset it
      computes from the length of the id. */
  function PeerEphemeral(transcript: seq<byte>, id: seq<byte>): Option<seq<byte>>
  {
    var offset := PREFIX + 2 + |id| + 32;
    if offset > |transcript| || |transcript| - offset < 32 then None
    else Some(transcript[offset..offset + 32])
  }

  lemma PeerEphemeralIsClients(f: Facts, h: Hello)
    requires Sized(f) && LegalHello(h) && f.hello == HelloBytes(h)
    ensures PeerEphemeral(Transcript(f), h.id) == Some(h.ephemeral)
  {
    TranscriptParts(f);
    var t, n := Transcript(f), |f.hello|;
    var o := 2 + |h.id| + 32;
    assert HelloBytes(h)[o..o + 32] == h.ephemeral;
    assert t[PREFIX..PREFIX + n][o..o + 32] == t[PREFIX + o..PREFIX + o + 32];
  }

  lemma ParsedIsHello(h: Hello, maxId: nat)
    requires LegalHello(h) && ParseHello(HelloBytes(h), maxId).Some?
    ensures ParseHello(HelloBytes(h), maxId) == Some((h.id, h.offered))
  {
    assert HelloBytes(h)[0..2] == U16(|h.id|);
    Got16(|h.id|);
    ParsedHello(h, maxId);
  }

  // ----- the two programs -----

  datatype Role = ServerRole | ClientRole
  datatype Signature = Signature(key: nat, role: Role, digest: Digest)

  datatype ClientConfig = ClientConfig(id: seq<byte>, identity: nat, serverKey: nat, mask: u32)
  datatype ServerConfig = ServerConfig(identity: nat, mask: u32, preferred: byte, maxId: nat,
                                       authorized: map<seq<byte>, nat>)

  /** A client run: its hello, then, once SERVER_HELLO verified and it has signed, what it
      signed and the keys it holds; it completes when AUTH_OK opens. */
  datatype Client = Client(cfg: ClientConfig, hello: Hello, done: Option<(Facts, SessionKeys)>, complete: bool)

  /** A server run, from SERVER_HELLO on; the keys once CLIENT_AUTH verified and AUTH_OK is
      sent. */
  datatype Server = Server(cfg: ServerConfig, clientId: seq<byte>, clientKey: nat, facts: Facts,
                           keys: Option<SessionKeys>)

  /** All runs, every signature made, and the key and nonce base of every AUTH_OK sealed: it
      is the first message under its key, and opens under no other. */
  datatype World = World(clients: seq<Client>, servers: seq<Server>, signed: set<Signature>, oks: set<(Key, Key)>)

  predicate Offers(mask: u32, c: byte) { if c == 0 then mask % 2 == 1 else c == 1 && mask / 2 % 2 == 1 }
  predicate Available(c: byte) { c == CHACHA }

  /** choose: the preferred cipher first, then the one that is compiled in. */
  function Choose(offered: u32, allowed: u32, preferred: byte): byte
  {
    if Offers(offered, preferred) && Offers(allowed, preferred) && Available(preferred) then preferred
    else if Offers(offered, CHACHA) && Offers(allowed, CHACHA) && Available(CHACHA) then CHACHA
    else 0
  }

  datatype Event =
    | ClientStarts(ccfg: ClientConfig, random: seq<byte>, ephemeral: seq<byte>)
    | ServerHears(scfg: ServerConfig, ch: seq<byte>, sr: seq<byte>, own: seq<byte>)
    | ClientHears(client: nat, rsr: seq<byte>, rep: seq<byte>, cipher: byte)
    | ServerHearsAuth(server: nat)
    | ClientHearsOk(waiting: nat)

  /** ct_handshake_client up to CLIENT_HELLO. */
  ghost function Starts(w: World, cfg: ClientConfig, random: seq<byte>, ephemeral: seq<byte>): World
  {
    var h := Hello(cfg.id, random, ephemeral, cfg.mask);
    if LegalHello(h) then w.(clients := w.clients + [Client(cfg, h, None, false)]) else w
  }

  /** ct_handshake_server_begin on whatever bytes arrive as CLIENT_HELLO. */
  ghost function Hears(w: World, fp: nat -> seq<byte>, cfg: ServerConfig, ch: seq<byte>, sr: seq<byte>,
                       own: seq<byte>): World
  {
    var p := ParseHello(ch, cfg.maxId);
    if p.None? || p.value.0 !in cfg.authorized || |sr| != 32 || |own| != 32 then w
    else
      var cipher := Choose(p.value.1, cfg.mask, cfg.preferred);
      if cipher == 0 then w
      else
        var key := cfg.authorized[p.value.0];
        var f := Facts(ch, sr, own, cipher, fp(key), fp(cfg.identity));
        w.(servers := w.servers + [Server(cfg, p.value.0, key, f, None)],
           signed := w.signed + {Signature(cfg.identity, ServerRole, Hash(Transcript(f)))})
  }

  function FactsOf(c: Client, fp: nat -> seq<byte>, sr: seq<byte>, ep: seq<byte>, cipher: byte): Facts
    requires |c.hello.id| < U16_LIMIT
  {
    Facts(HelloBytes(c.hello), sr, ep, cipher, fp(c.cfg.identity), fp(c.cfg.serverKey))
  }

  /** ct_handshake_client on whatever bytes arrive as SERVER_HELLO. The signature verifies
      only if the configured server key made it for this transcript. */
  ghost function Replies(w: World, fp: nat -> seq<byte>, i: nat, sr: seq<byte>, ep: seq<byte>, cipher: byte): World
  {
    if i >= |w.clients| || w.clients[i].done.Some? || |w.clients[i].hello.id| >= U16_LIMIT
       || |sr| != 32 || |ep| != 32 then w
    else
      var c := w.clients[i];
      var f := FactsOf(c, fp, sr, ep, cipher);
      var digest := Hash(Transcript(f));
      if cipher != CHACHA || !Offers(c.cfg.mask, cipher) || !Available(cipher)
         || Signature(c.cfg.serverKey, ServerRole, digest) !in w.signed then w
      else
        var keys := Derive(Shared(c.hello.ephemeral, ep), Transcript(f));
        w.(clients := w.clients[i := c.(done := Some((f, keys)))],
           signed := w.signed + {Signature(c.cfg.identity, ClientRole, digest)})
  }

  /** ct_handshake_server_finish up to AUTH_OK: the signature verifies only if the authorized
      client key made it for this transcript. */
  ghost function HearsAuth(w: World, j: nat): World
  {
    if j >= |w.servers| || w.servers[j].keys.Some? then w
    else
      var s := w.servers[j];
      var t := Transcript(s.facts);
      var peer := PeerEphemeral(t, s.clientId);
      if Signature(s.clientKey, ClientRole, Hash(t)) !in w.signed || peer.None? then w
      else
        var keys := Derive(Shared(s.facts.serverEphemeral, peer.value), t);
        w.(servers := w.servers[j := s.(keys := Some(keys))], oks := w.oks + {SendKey(false, keys)})
  }

  /** ct_handshake_client on whatever arrives as AUTH_OK. */
  ghost function HearsOk(w: World, i: nat): World
  {
    if i >= |w.clients| || w.clients[i].done.None? || ReceiveKey(true, w.clients[i].done.value.1) !in w.oks then w
    else w.(clients := w.clients[i := w.clients[i].(complete := true)])
  }

  ghost function Happens(w: World, fp: nat -> seq<byte>, e: Event): World
  {
    match e
    case ClientStarts(cfg, random, ephemeral) => Starts(w, cfg, random, ephemeral)
    case ServerHears(cfg, ch, sr, own) => Hears(w, fp, cfg, ch, sr, own)
    case ClientHears(i, sr, ep, cipher) => Replies(w, fp, i, sr, ep, cipher)
    case ServerHearsAuth(j) => HearsAuth(w, j)
    case ClientHearsOk(i) => HearsOk(w, i)
  }

  ghost function History(fp: nat -> seq<byte>, events: seq<Event>): World
    decreases |events|
  {
    if events == [] then World([], [], {}, {})
    else Happens(History(fp, events[..|events| - 1]), fp, events[|events| - 1])
  }
}

/** Binding work connections and streams to a session: the MAC inputs of
    src/net/net.c:751-993, the data keys of src/crypto/crypto_monocypher.c:415-449, and
    the START / READY exchange that starts a relay at both ends. */
module StreamBinding {
  import opened Bytes
  import opened Protocol
  import opened UdpCodec
  import opened Handshake

  // ----- taking concatenations apart -----

  lemma SplitEq(a: seq<byte>, b: seq<byte>, c: seq<byte>, d: seq<byte>)
    requires a + b == c + d && |a| == |c|
    ensures a == c && b == d
  {
    assert a == (a + b)[..|a|] && c == (c + d)[..|c|];
    assert b == (a + b)[|a|..] && d == (c + d)[|c|..];
  }

  /** A length-prefixed string can be read off the front in only one way. */
  lemma StrSplit(s: seq<byte>, b: seq<byte>, t: seq<byte>, d: seq<byte>)
    requires |s| < U16_LIMIT && |t| < U16_LIMIT && Str(s) + b == Str(t) + d
    ensures s == t && b == d
  {
    assert (Str(s) + b)[..2] == U16(|s|) && (Str(t) + d)[..2] == U16(|t|);
    Got16(|s|); Got16(|t|);
    SplitEq(Str(s), b, Str(t), d);
    assert s == Str(s)[2..] && t == Str(t)[2..];
  }

  lemma U64Split(x: u64, b: seq<byte>, y: u64, d: seq<byte>)
    requires U64(x) + b == U64(y) + d
    ensures x == y && b == d
  {
    SplitEq(U64(x), b, U64(y), d);
    Got64(x); Got64(y);
  }

  // ----- stream MAC -----

  datatype Meta = Meta(proxy: byte, source: Endpoint, destination: Endpoint)

  /** What names a stream: everything the two ends must agree on before data flows. */
  datatype Stream = Stream(work: seq<byte>, service: seq<byte>, mode: byte, id: u64, random: seq<byte>)

  datatype Bound = Bound(session: u64, client: seq<byte>, stream: Stream, meta: Option<Meta>,
                         kind: byte, role: byte, ok: byte)

  ghost predicate MetaSized(m: Meta) { |m.source.addr| == 16 && |m.destination.addr| == 16 }

  ghost predicate StreamSized(s: Stream)
  {
    |s.work| == 32 && |s.random| == 32 && |s.service| < U16_LIMIT
  }

  ghost predicate BoundSized(b: Bound)
  {
    |b.client| < U16_LIMIT && StreamSized(b.stream) && (b.meta.Some? ==> MetaSized(b.meta.value))
  }

  /** "ctunnel-v3/stream-binding" */
  const STREAM_LABEL: seq<byte> :=
    [99, 116, 117, 110, 110, 101, 108, 45, 118, 51, 47, 115, 116, 114, 101, 97, 109, 45,
     98, 105, 110, 100, 105, 110, 103]

  function EndpointFields(e: Endpoint): (b: seq<byte>)
    ensures |b| == 3 + |e.addr|
  {
    [e.family] + e.addr + U16(e.port)
  }

  /** 39 bytes of metadata, or 38 zeros. */
  function MetaFields(m: Option<Meta>): (b: seq<byte>)
    ensures m.None? ==> |b| == 38
    ensures m.Some? ==> |b| == 7 + |m.value.source.addr| + |m.value.destination.addr|
  {
    match m
    case None => Pad(38)
    case Some(v) => [v.proxy] + EndpointFields(v.source) + EndpointFields(v.destination)
  }

  // streammac's input, built from its end so that it can be taken apart from its front.
  function Tail4(b: Bound): seq<byte> { MetaFields(b.meta) + [b.kind, b.role, b.ok] }
  function Tail3(b: Bound): seq<byte> { U64(b.stream.id) + (b.stream.random + ([b.stream.mode] + Tail4(b))) }
  function Tail2(b: Bound): seq<byte>
    requires |b.stream.service| < U16_LIMIT
  {
    b.stream.work + (Str(b.stream.service) + Tail3(b))
  }

  function MacInput(b: Bound): seq<byte>
    requires |b.client| < U16_LIMIT && |b.stream.service| < U16_LIMIT
  {
    STREAM_LABEL + (U64(b.session) + (Str(b.client) + Tail2(b)))
  }

  lemma EndpointFieldsInjective(e: Endpoint, f: Endpoint)
    requires |e.addr| == |f.addr| && EndpointFields(e) == EndpointFields(f)
    ensures e == f
  {
    var x, y := EndpointFields(e), EndpointFields(f);
    var n := |e.addr|;
    assert x[0] == e.family && x[1..1 + n] == e.addr && x[1 + n..] == U16(e.port);
    assert y[0] == f.family && y[1..1 + n] == f.addr && y[1 + n..] == U16(f.port);
    Got16(e.port); Got16(f.port);
  }

  lemma MetaFieldsInjective(m: Meta, n: Meta)
    requires MetaSized(m) && MetaSized(n) && MetaFields(Some(m)) == MetaFields(Some(n))
    ensures m == n
  {
    var x, y := MetaFields(Some(m)), MetaFields(Some(n));
    assert x[0] == m.proxy && x[1..20] == EndpointFields(m.source) && x[20..] == EndpointFields(m.destination);
    assert y[0] == n.proxy && y[1..20] == EndpointFields(n.source) && y[20..] == EndpointFields(n.destination);
    EndpointFieldsInjective(m.source, n.source);
    EndpointFieldsInjective(m.destination, n.destination);
  }

  lemma Tail4Injective(a: Bound, b: Bound)
    requires BoundSized(a) && BoundSized(b) && Tail4(a) == Tail4(b)
    ensures a.meta == b.meta && a.kind == b.kind && a.role == b.role && a.ok == b.ok
  {
    SplitEq(MetaFields(a.meta), [a.kind, a.role, a.ok], MetaFields(b.meta), [b.kind, b.role, b.ok]);
    if a.meta.Some? && b.meta.Some? { MetaFieldsInjective(a.meta.value, b.meta.value); }
  }

  lemma Tail3Injective(a: Bound, b: Bound)
    requires BoundSized(a) && BoundSized(b) && Tail3(a) == Tail3(b)
    ensures a.stream.id == b.stream.id && a.stream.random == b.stream.random
    ensures a.stream.mode == b.stream.mode && Tail4(a) == Tail4(b)
  {
    var x, y := [a.stream.mode] + Tail4(a), [b.stream.mode] + Tail4(b);
    U64Split(a.stream.id, a.stream.random + x, b.stream.id, b.stream.random + y);
    SplitEq(a.stream.random, x, b.stream.random, y);
    SplitEq([a.stream.mode], Tail4(a), [b.stream.mode], Tail4(b));
  }

  /** The stream MAC input determines everything it binds. */
  lemma MacInputInjective(a: Bound, b: Bound)
    requires BoundSized(a) && BoundSized(b) && MacInput(a) == MacInput(b)
    ensures a == b
  {
    var x, y := Str(a.client) + Tail2(a), Str(b.client) + Tail2(b);
    SplitEq(STREAM_LABEL, U64(a.session) + x, STREAM_LABEL, U64(b.session) + y);
    U64Split(a.session, x, b.session, y);
    StrSplit(a.client, Tail2(a), b.client, Tail2(b));
    var u, v := Str(a.stream.service) + Tail3(a), Str(b.stream.service) + Tail3(b);
    SplitEq(a.stream.work, u, b.stream.work, v);
    StrSplit(a.stream.service, Tail3(a), b.stream.service, Tail3(b));
    Tail3Injective(a, b);
    Tail4Injective(a, b);
  }

  // ----- work-connection MAC -----

  /** "ctunnel-v3/work-bind/client-to-server" */
  const WORK_LABEL: seq<byte> :=
    [99, 116, 117, 110, 110, 101, 108, 45, 118, 51, 47, 119, 111, 114, 107, 45, 98, 105, 110, 100,
     47, 99, 108, 105, 101, 110, 116, 45, 116, 111, 45, 115, 101, 114, 118, 101, 114]
  const WORK_BIND: byte := 21

  function WorkMacInput(session: u64, client: seq<byte>, work: seq<byte>): seq<byte>
    requires |client| < U16_LIMIT
  {
    WORK_LABEL + (U64(session) + (Str(client) + ([WORK_BIND] + work)))
  }

  lemma WorkMacInputInjective(s: u64, c: seq<byte>, w: seq<byte>, t: u64, d: seq<byte>, v: seq<byte>)
    requires |c| < U16_LIMIT && |d| < U16_LIMIT && WorkMacInput(s, c, w) == WorkMacInput(t, d, v)
    ensures s == t && c == d && w == v
  {
    var x, y := Str(c) + ([WORK_BIND] + w), Str(d) + ([WORK_BIND] + v);
    SplitEq(WORK_LABEL, U64(s) + x, WORK_LABEL, U64(t) + y);
    U64Split(s, x, t, y);
    StrSplit(c, [WORK_BIND] + w, d, [WORK_BIND] + v);
    SplitEq([WORK_BIND], w, [WORK_BIND], v);
  }

  // ----- data keys -----

  /** "ctunnel-v3/data-stream" */
  const DATA_LABEL: seq<byte> :=
    [99, 116, 117, 110, 110, 101, 108, 45, 118, 51, 47, 100, 97, 116, 97, 45, 115, 116, 114, 101, 97, 109]

  function DataContext(s: Stream, dir: byte): seq<byte>
    requires |s.service| < U16_LIMIT
  {
    DATA_LABEL + (U64(s.id) + (s.random + (s.work + (Str(s.service) + [s.mode, dir]))))
  }

  lemma DataContextInjective(s: Stream, x: byte, t: Stream, y: byte)
    requires StreamSized(s) && StreamSized(t) && DataContext(s, x) == DataContext(t, y)
    ensures s == t && x == y
  {
    var a, b := Str(s.service) + [s.mode, x], Str(t.service) + [t.mode, y];
    SplitEq(DATA_LABEL, U64(s.id) + (s.random + (s.work + a)), DATA_LABEL, U64(t.id) + (t.random + (t.work + b)));
    U64Split(s.id, s.random + (s.work + a), t.id, t.random + (t.work + b));
    SplitEq(s.random, s.work + a, t.random, t.work + b);
    SplitEq(s.work, a, t.work, b);
    StrSplit(s.service, [s.mode, x], t.service, [t.mode, y]);
    assert [s.mode, x][0] == s.mode && [t.mode, y][0] == t.mode;
    assert [s.mode, x][1] == x && [t.mode, y][1] == y;
  }

  /** ct_derive_data: key and nonce base of one direction of one stream. */
  function DeriveData(master: Key, s: Stream, dir: byte): (Key, Key)
    requires |s.service| < U16_LIMIT
  {
    var m, salt := Master(master), Hash(DataContext(s, dir));
    if dir != 0 then (Kdf(m, salt, DataS2c), Kdf(m, salt, DataNonceS2c))
    else (Kdf(m, salt, DataC2s), Kdf(m, salt, DataNonceC2s))
  }

  // The directions ct_relay_init picks.
  function SendDir(isClient: bool): byte { if isClient then 0 else 1 }
  function RecvDir(isClient: bool): byte { if isClient then 1 else 0 }

  /** Equal stream parameters give crossed keys: each end sends under the key and nonce
      base the other receives under. */
  lemma DataKeysCross(master: Key, s: Stream)
    requires StreamSized(s)
    ensures DeriveData(master, s, SendDir(true)) == DeriveData(master, s, RecvDir(false))
    ensures DeriveData(master, s, SendDir(false)) == DeriveData(master, s, RecvDir(true))
  {
  }

  /** Different master keys, streams or directions never share a key. */
  lemma DataKeysDistinct(a: Key, s: Stream, x: byte, b: Key, t: Stream, y: byte)
    requires StreamSized(s) && StreamSized(t) && (a != b || s != t || x != y)
    ensures DeriveData(a, s, x).0 != DeriveData(b, t, y).0
  {
    if DataContext(s, x) == DataContext(t, y) { DataContextInjective(s, x, t, y); }
  }
}

/** Control-channel framing, length-prefixed strings and the registration request
    (src/protocol/protocol.c, src/client/client.c:218-243). */
module Protocol {
  import opened Bytes
  import opened Seqs

  // ----- frame header -----

  const MAGIC: u32 := 0x4354_554e
  const VERSION: byte := 3
  const FRAME: nat := 36
  const ENCRYPTED: byte := 1

  datatype Frame = Frame(kind: byte, flags: byte, payloadLen: u32, session: u64, stream: u64, sequence: u64)

  predicate TypeValid(t: byte)
  {
    1 <= t <= 5 || 10 <= t <= 13 || 20 <= t <= 28 || 30 <= t <= 33
  }

  /** ct_frame_header_encode; maxPayload is CT_MAX_FRAME_PAYLOAD. */
  function EncodeFrame(h: Frame, maxPayload: nat): Option<seq<byte>>
  {
    if !TypeValid(h.kind) || h.payloadLen > maxPayload then None
    else Some(FrameBytes(h))
  }

  function FrameBytes(h: Frame): (b: seq<byte>)
    ensures |b| == FRAME
  {
    U32(MAGIC) + [VERSION, h.kind, h.flags, FRAME] + U32(h.payloadLen)
    + U64(h.session) + U64(h.stream) + U64(h.sequence)
  }

  /** ct_frame_header_decode. */
  function DecodeFrame(p: seq<byte>, maxPayload: nat): Option<Frame>
    requires |p| == FRAME
  {
    if GetU32(p[..4]) != MAGIC || p[4] != VERSION || p[7] != FRAME || !TypeValid(p[5]) then None
    else
      var h := Frame(p[5], p[6], GetU32(p[8..12]), GetU64(p[12..20]), GetU64(p[20..28]), GetU64(p[28..36]));
      if h.payloadLen > maxPayload then None else Some(h)
  }

  lemma FrameFields(h: Frame)
    ensures var p := FrameBytes(h);
      && p[..4] == U32(MAGIC) && p[4] == VERSION && p[5] == h.kind && p[6] == h.flags && p[7] == FRAME
      && p[8..12] == U32(h.payloadLen) && p[12..20] == U64(h.session)
      && p[20..28] == U64(h.stream) && p[28..36] == U64(h.sequence)
  {
  }

  lemma FrameRebuilt(p: seq<byte>, h: Frame)
    requires |p| == FRAME
    requires p[..4] == U32(MAGIC) && p[4] == VERSION && p[5] == h.kind && p[6] == h.flags && p[7] == FRAME
    requires p[8..12] == U32(h.payloadLen) && p[12..20] == U64(h.session)
    requires p[20..28] == U64(h.stream) && p[28..36] == U64(h.sequence)
    ensures p == FrameBytes(h)
  {
    assert p == p[..4] + [p[4], p[5], p[6], p[7]] + p[8..12] + p[12..20] + p[20..28] + p[28..36];
  }

  /** Decoding accepts a string exactly when it is the encoding of the header it yields:
      the two functions are mutually inverse on valid headers and accepted strings. */
  lemma FrameInverse(p: seq<byte>, h: Frame, maxPayload: nat)
    requires |p| == FRAME
    ensures DecodeFrame(p, maxPayload) == Some(h) <==> EncodeFrame(h, maxPayload) == Some(p)
  {
    if EncodeFrame(h, maxPayload) == Some(p) {
      FrameFields(h);
      Got32(MAGIC); Got32(h.payloadLen); Got64(h.session); Got64(h.stream); Got64(h.sequence);
    }
    if DecodeFrame(p, maxPayload) == Some(h) {
      Put32(p[..4]); Put32(p[8..12]); Put64(p[12..20]); Put64(p[20..28]); Put64(p[28..36]);
      FrameRebuilt(p, h);
    }
  }

  // ----- length-prefixed strings -----

  predicate NulFree(s: seq<byte>) { 0 !in s }

  /** What C code sees of a buffer it treats as a string: everything before the first NUL. */
  function CString(b: seq<byte>): seq<byte>
  {
    if b == [] || b[0] == 0 then [] else [b[0]] + CString(b[1..])
  }

  lemma {:induction false} CStringWhole(b: seq<byte>)
    ensures NulFree(b) ==> CString(b) == b
    decreases |b|
  {
    if b != [] { CStringWhole(b[1..]); assert b == [b[0]] + b[1..]; }
  }

  function Str(s: seq<byte>): (b: seq<byte>)
    requires |s| < U16_LIMIT
    ensures |b| == 2 + |s|
  {
    U16(|s|) + s
  }

  /** ct_pack_string at the end of what has been written. */
  function PackString(out: seq<byte>, cap: nat, s: seq<byte>, max: nat): Option<seq<byte>>
  {
    if |s| > max || |s| > 65535 || |out| > cap || cap - |out| < 2 + |s| then None
    else Some(out + Str(s))
  }

  /** ct_unpack_string: the raw bytes of the string and the offset behind it. */
  function UnpackString(b: seq<byte>, off: nat, cap: nat): (r: Option<(seq<byte>, nat)>)
    ensures r.Some? ==> off + 2 <= r.value.1 <= |b| && r.value.1 == off + 2 + |r.value.0|
  {
    if off > |b| || |b| - off < 2 then None
    else
      var z := GetU16(b[off..off + 2]);
      if z >= cap || |b| - off - 2 < z then None
      else Some((b[off + 2..off + 2 + z], off + 2 + z))
  }

  /** Unpacking succeeds exactly on a packed string that fits, and returns it. */
  lemma UnpackIffPacked(b: seq<byte>, off: nat, cap: nat, s: seq<byte>)
    requires off <= |b| && |s| < U16_LIMIT
    ensures UnpackString(b, off, cap) == Some((s, off + 2 + |s|)) <==>
            |s| < cap && off + 2 + |s| <= |b| && b[off..off + 2 + |s|] == Str(s)
  {
    if off + 2 + |s| <= |b| && b[off..off + 2 + |s|] == Str(s) {
      var w := b[off..off + 2 + |s|];
      assert w[..2] == U16(|s|) && w[2..] == s;
      Got16(|s|);
      assert b[off..off + 2] == w[..2] && b[off + 2..off + 2 + |s|] == w[2..];
    }
    if UnpackString(b, off, cap) == Some((s, off + 2 + |s|)) {
      Put16(b[off..off + 2]);
      assert b[off..off + 2 + |s|] == b[off..off + 2] + b[off + 2..off + 2 + |s|];
    }
  }

  lemma UnpackPacked(pre: seq<byte>, s: seq<byte>, post: seq<byte>, cap: nat)
    requires |s| < U16_LIMIT && |s| < cap
    ensures UnpackString(pre + Str(s) + post, |pre|, cap) == Some((s, |pre| + 2 + |s|))
  {
    var b := pre + Str(s) + post;
    assert b[|pre|..|pre| + 2 + |s|] == Str(s);
    UnpackIffPacked(b, |pre|, cap, s);
  }

  // ----- registration -----

  datatype Registration = Registration(
    id: seq<byte>, addr: seq<byte>, port: u16, kind: byte, mode: byte, proxy: byte,
    idle: u32, reply: u32, sessions: u32, datagram: u32)

  const UDP_SERVICE: byte := 2

  function UdpFields(r: Registration): (b: seq<byte>)
    ensures |b| == 16
  {
    U32(r.idle) + U32(r.reply) + U32(r.sessions) + U32(r.datagram)
  }

  /** What a client sends (client_register): the UDP fields follow only for UDP services. */
  function EncodeRegistration(r: Registration): seq<byte>
    requires |r.id| < U16_LIMIT && |r.addr| < U16_LIMIT
  {
    Str(r.id) + Str(r.addr) + U16(r.port) + [r.kind, r.mode]
    + [r.proxy] + (if r.kind == UDP_SERVICE then UdpFields(r) else [])
  }

  /** ct_register_request_decode, with the option bytes in any of their four layouts. */
  function DecodeRegistration(b: seq<byte>, idCap: nat, addrCap: nat): Option<Registration>
  {
    var i := UnpackString(b, 0, idCap);
    if i.None? then None
    else
      var a := UnpackString(b, i.value.1, addrCap);
      if a.None? then None
      else DecodeFields(b[a.value.1..], CString(i.value.0), CString(a.value.0))
  }

  function DecodeFields(t: seq<byte>, id: seq<byte>, addr: seq<byte>): Option<Registration>
  {
    if |t| < 4 then None
    else DecodeOptions(t[4..], Registration(id, addr, GetU16(t[..2]), t[2], t[3], 0, 0, 0, 0, 0))
  }

  function DecodeOptions(t: seq<byte>, base: Registration): Option<Registration>
  {
    if t == [] then Some(base)
    else
      var withProxy := |t| == 1 || |t| == 17;
      var r := if withProxy then base.(proxy := t[0]) else base;
      var u := if withProxy then t[1..] else t;
      if u == [] then Some(r)
      else if |u| != 16 then None
      else Some(r.(idle := GetU32(u[..4]), reply := GetU32(u[4..8]),
                   sessions := GetU32(u[8..12]), datagram := GetU32(u[12..])))
  }

  ghost predicate LegalRegistration(r: Registration, idCap: nat, addrCap: nat)
  {
    && |r.id| < idCap && |r.addr| < addrCap && |r.id| < U16_LIMIT && |r.addr| < U16_LIMIT
    && NulFree(r.id) && NulFree(r.addr)
    && (r.kind != UDP_SERVICE ==> r.idle == r.reply == r.sessions == r.datagram == 0)
  }

  lemma OptionsRoundTrip(r: Registration)
    requires r.kind != UDP_SERVICE ==> r.idle == r.reply == r.sessions == r.datagram == 0
    ensures var t := [r.proxy] + (if r.kind == UDP_SERVICE then UdpFields(r) else []);
      DecodeOptions(t, r.(proxy := 0, idle := 0, reply := 0, sessions := 0, datagram := 0)) == Some(r)
  {
    var u := UdpFields(r);
    assert ([r.proxy] + u)[1..] == u;
    assert u[..4] == U32(r.idle) && u[4..8] == U32(r.reply);
    assert u[8..12] == U32(r.sessions) && u[12..] == U32(r.datagram);
    Got32(r.idle); Got32(r.reply); Got32(r.sessions); Got32(r.datagram);
  }

  lemma TwoStrings(id: seq<byte>, addr: seq<byte>, rest: seq<byte>, idCap: nat, addrCap: nat)
    requires |id| < U16_LIMIT && |id| < idCap && |addr| < U16_LIMIT && |addr| < addrCap
    ensures var b := Str(id) + Str(addr) + rest;
      var off := 4 + |id| + |addr|;
      && UnpackString(b, 0, idCap) == Some((id, 2 + |id|))
      && UnpackString(b, 2 + |id|, addrCap) == Some((addr, off))
      && b[off..] == rest
  {
    Assoc(Str(id), Str(addr), rest);
    assert [] + Str(id) + (Str(addr) + rest) == Str(id) + (Str(addr) + rest);
    UnpackPacked([], id, Str(addr) + rest, idCap);
    UnpackPacked(Str(id), addr, rest, addrCap);
  }

  lemma FixedFields(port: u16, kind: byte, mode: byte, opts: seq<byte>)
    ensures var rest := U16(port) + [kind, mode] + opts;
      rest[..2] == U16(port) && rest[2] == kind && rest[3] == mode && rest[4..] == opts
  {
  }

  lemma EncodedParts(r: Registration)
    requires |r.id| < U16_LIMIT && |r.addr| < U16_LIMIT
    ensures var opts := [r.proxy] + (if r.kind == UDP_SERVICE then UdpFields(r) else []);
      EncodeRegistration(r) == Str(r.id) + Str(r.addr) + (U16(r.port) + [r.kind, r.mode] + opts)
  {
    RegroupFields(Str(r.id) + Str(r.addr), U16(r.port), [r.kind, r.mode], [r.proxy],
                  if r.kind == UDP_SERVICE then UdpFields(r) else []);
  }

  lemma RegroupFields(a: seq<byte>, b: seq<byte>, c: seq<byte>, d: seq<byte>, e: seq<byte>)
    ensures a + b + c + d + e == a + (b + c + (d + e))
  {
  }

  /** Every legal registration a client encodes is the one the server decodes. */
  lemma RegistrationRoundTrip(r: Registration, idCap: nat, addrCap: nat)
    requires LegalRegistration(r, idCap, addrCap)
    ensures DecodeRegistration(EncodeRegistration(r), idCap, addrCap) == Some(r)
  {
    var opts := [r.proxy] + (if r.kind == UDP_SERVICE then UdpFields(r) else []);
    var rest := U16(r.port) + [r.kind, r.mode] + opts;
    EncodedParts(r);
    TwoStrings(r.id, r.addr, rest, idCap, addrCap);
    CStringWhole(r.id);
    CStringWhole(r.addr);
    FixedFields(r.port, r.kind, r.mode, opts);
    Got16(r.port);
    OptionsRoundTrip(r);
  }
}

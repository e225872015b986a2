/** The UDP datagram codec, written once in src/net/net.c:325-392 and once more in
    src/server/server.c:281-323. */
module UdpCodec {
  import opened Bytes
  import opened Seqs
  import opened Protocol

  datatype Endpoint = Endpoint(family: byte, addr: seq<byte>, port: u16)

  /** As endpoint_from_sockaddr leaves it: 16 address bytes, the unused ones zero. */
  ghost predicate LegalEndpoint(e: Endpoint)
  {
    && |e.addr| == 16 && (e.family == 4 || e.family == 6)
    && (e.family == 4 ==> e.addr[4..] == Pad(12))
  }

  function AddressLength(family: byte): nat
  {
    if family == 4 then 4 else if family == 6 then 16 else 0
  }

  function EndpointBytes(e: Endpoint): seq<byte>
    requires |e.addr| == 16
  {
    [e.family] + e.addr[..AddressLength(e.family)] + U16(e.port)
  }

  /** ct_udp_endpoint_encode behind what has been written. */
  function EncodeEndpoint(out: seq<byte>, cap: nat, e: Endpoint): Option<seq<byte>>
    requires |e.addr| == 16
  {
    var n := AddressLength(e.family);
    if n == 0 || |out| > cap || cap - |out| < 1 + n + 2 then None
    else Some(out + EndpointBytes(e))
  }

  /** ct_udp_endpoint_decode: the endpoint and the offset behind it. */
  function DecodeEndpoint(b: seq<byte>, off: nat): (r: Option<(Endpoint, nat)>)
    ensures r.Some? ==> off < r.value.1 <= |b| && |r.value.0.addr| == 16
  {
    if off >= |b| then None
    else
      var n := AddressLength(b[off]);
      if n == 0 || |b| - (off + 1) < n + 2 then None
      else Some((Endpoint(b[off], b[off + 1..off + 1 + n] + Pad(16 - n), GetU16(b[off + 1 + n..off + 3 + n])),
                 off + 3 + n))
  }

  lemma EndpointRoundTrip(pre: seq<byte>, e: Endpoint, post: seq<byte>)
    requires LegalEndpoint(e)
    ensures DecodeEndpoint(pre + EndpointBytes(e) + post, |pre|)
         == Some((e, |pre| + |EndpointBytes(e)|))
  {
    var b, n := pre + EndpointBytes(e) + post, AddressLength(e.family);
    var off := |pre|;
    assert b[off] == e.family;
    assert b[off + 1..off + 1 + n] == e.addr[..n];
    assert b[off + 1 + n..off + 3 + n] == U16(e.port);
    Got16(e.port);
    assert e.addr == e.addr[..n] + Pad(16 - n) by {
      if n == 16 { assert Pad(0) == [] && e.addr[..16] == e.addr; }
      else { assert e.addr == e.addr[..4] + e.addr[4..]; }
    }
  }

  datatype Datagram = Datagram(direction: byte, session: u64, sequence: u64,
                               service: seq<byte>, peer: Endpoint, payload: seq<byte>)

  // ----- net.c -----

  /** ct_udp_datagram_pack into an empty buffer of `cap` bytes. */
  function NetPack(d: Datagram, cap: nat, maxId: nat): Option<seq<byte>>
    requires |d.peer.addr| == 16
  {
    if |d.payload| > 65535 || cap < 1 + 8 + 8 then None
    else
      match PackString([d.direction] + U64(d.session) + U64(d.sequence), cap, d.service, maxId)
      case None => None
      case Some(s) =>
        match EncodeEndpoint(s, cap, d.peer)
        case None => None
        case Some(e) =>
          if cap - |e| < 2 + |d.payload| then None else Some(e + U16(|d.payload|) + d.payload)
  }

  /** ct_udp_datagram_unpack. */
  function NetUnpack(b: seq<byte>, maxId: nat): Option<Datagram>
  {
    if |b| < 17 then None
    else
      match UnpackString(b, 17, maxId + 1)
      case None => None
      case Some(s) =>
        match DecodeEndpoint(b, s.1)
        case None => None
        case Some(e) =>
          var off := e.1;
          if |b| - off < 2 then None
          else
            var n := GetU16(b[off..off + 2]);
            if |b| - (off + 2) != n then None
            else Some(Datagram(b[0], GetU64(b[1..9]), GetU64(b[9..17]), CString(s.0), e.0, b[off + 2..]))
  }

  // ----- server.c -----

  /** udp_pack, which takes the fields one by one. */
  method ServerPack(cap: nat, maxId: nat, direction: byte, id: u64, sequence: u64,
                    service: seq<byte>, peer: Endpoint, payload: seq<byte>)
    returns (out: Option<seq<byte>>)
    requires |peer.addr| == 16
    ensures out == NetPack(Datagram(direction, id, sequence, service, peer, payload), cap, maxId)
  {
    if |payload| > 65535 { return None; }
    if cap < 1 + 8 + 8 { return None; }
    var b := [direction];
    b := b + U64(id);
    b := b + U64(sequence);
    var s := PackString(b, cap, service, maxId);
    if s.None? { return None; }
    var e := EncodeEndpoint(s.value, cap, peer);
    if e.None? || cap - |e.value| < 2 + |payload| { return None; }
    b := e.value + U16(|payload|);
    b := b + payload;
    return Some(b);
  }

  /** udp_unpack, which fills the fields one by one and may stop anywhere. */
  method ServerUnpack(b: seq<byte>, maxId: nat)
    returns (ok: bool, direction: byte, id: u64, sequence: u64,
             service: seq<byte>, peer: Endpoint, payload: seq<byte>)
    ensures ok <==> NetUnpack(b, maxId).Some?
    ensures ok ==> NetUnpack(b, maxId).value == Datagram(direction, id, sequence, service, peer, payload)
  {
    direction, id, sequence, service, peer, payload := 0, 0, 0, [], Endpoint(0, [], 0), [];
    var off := 0;
    if |b| < 17 { return false, direction, id, sequence, service, peer, payload; }
    direction := b[off];
    off := off + 1;
    id := GetU64(b[off..off + 8]);
    off := off + 8;
    sequence := GetU64(b[off..off + 8]);
    off := off + 8;
    var s := UnpackString(b, off, maxId + 1);
    if s.None? { return false, direction, id, sequence, service, peer, payload; }
    service, off := CString(s.value.0), s.value.1;
    var e := DecodeEndpoint(b, off);
    if e.None? { return false, direction, id, sequence, service, peer, payload; }
    peer, off := e.value.0, e.value.1;
    if |b| - off < 2 { return false, direction, id, sequence, service, peer, payload; }
    var n := GetU16(b[off..off + 2]);
    off := off + 2;
    if |b| - off != n { return false, direction, id, sequence, service, peer, payload; }
    payload := b[off..];
    ok := true;
  }

  // ----- round trip -----

  ghost predicate LegalDatagram(d: Datagram, maxId: nat)
  {
    && |d.service| <= maxId && maxId <= 65535 && NulFree(d.service)
    && LegalEndpoint(d.peer) && |d.payload| <= 65535
  }

  function Head(d: Datagram): (b: seq<byte>)
    ensures |b| == 17
  {
    [d.direction] + U64(d.session) + U64(d.sequence)
  }

  function Size(d: Datagram): nat
    requires |d.peer.addr| == 16
  {
    17 + 2 + |d.service| + |EndpointBytes(d.peer)| + 2 + |d.payload|
  }

  /** A legal datagram packs exactly when it fits the buffer, and unpacks to itself. */
  lemma DatagramRoundTrip(d: Datagram, cap: nat, maxId: nat)
    requires LegalDatagram(d, maxId)
    ensures NetPack(d, cap, maxId).Some? <==> Size(d) <= cap
    ensures Size(d) <= cap ==> NetUnpack(NetPack(d, cap, maxId).value, maxId) == Some(d)
  {
    if Size(d) <= cap {
      var tail := U16(|d.payload|) + d.payload;
      var e := EndpointBytes(d.peer);
      PackedParts(d, cap, maxId);
      Got16(|d.payload|);
      assert tail[..2] == U16(|d.payload|) && tail[2..] == d.payload;
      UnpackParts(Head(d), d, e, tail, maxId);
    }
  }

  lemma PackedParts(d: Datagram, cap: nat, maxId: nat)
    requires LegalDatagram(d, maxId) && Size(d) <= cap
    ensures NetPack(d, cap, maxId)
         == Some(Head(d) + Str(d.service) + EndpointBytes(d.peer) + (U16(|d.payload|) + d.payload))
  {
    Assoc(Head(d) + Str(d.service) + EndpointBytes(d.peer), U16(|d.payload|), d.payload);
  }

  /** The fields read one after the other, put together. */
  lemma FieldsRead(b: seq<byte>, maxId: nat, s: (seq<byte>, nat), e: (Endpoint, nat), tail: seq<byte>)
    requires |b| >= 17 && UnpackString(b, 17, maxId + 1) == Some(s) && DecodeEndpoint(b, s.1) == Some(e)
    requires e.1 <= |b| && b[e.1..] == tail && |tail| >= 2 && GetU16(tail[..2]) == |tail| - 2
    ensures NetUnpack(b, maxId)
         == Some(Datagram(b[0], GetU64(b[1..9]), GetU64(b[9..17]), CString(s.0), e.0, tail[2..]))
  {
    var off := e.1;
    assert b[off..off + 2] == tail[..2] && b[off + 2..] == tail[2..];
  }

  lemma ServiceRead(head: seq<byte>, d: Datagram, e: seq<byte>, tail: seq<byte>, maxId: nat)
    requires LegalDatagram(d, maxId) && |head| == 17
    ensures UnpackString(head + Str(d.service) + e + tail, 17, maxId + 1) == Some((d.service, 17 + 2 + |d.service|))
  {
    Assoc(head + Str(d.service), e, tail);
    UnpackPacked(head, d.service, e + tail, maxId + 1);
  }

  lemma UnpackParts(head: seq<byte>, d: Datagram, e: seq<byte>, tail: seq<byte>, maxId: nat)
    requires LegalDatagram(d, maxId) && head == Head(d) && e == EndpointBytes(d.peer) && |tail| >= 2
    requires |tail| - 2 == GetU16(tail[..2])
    ensures NetUnpack(head + Str(d.service) + e + tail, maxId) == Some(d.(payload := tail[2..]))
  {
    var b := head + Str(d.service) + e + tail;
    assert b[..17] == head;
    HeadFields(d, b);
    Got64(d.session);
    Got64(d.sequence);
    CStringWhole(d.service);
    ServiceRead(head, d, e, tail, maxId);
    EndpointRoundTrip(head + Str(d.service), d.peer, tail);
    var off := 17 + 2 + |d.service|;
    assert b[off + |e|..] == tail;
    FieldsRead(b, maxId, (d.service, off), (d.peer, off + |e|), tail);
  }

  lemma HeadFields(d: Datagram, b: seq<byte>)
    requires |b| >= 17 && b[..17] == Head(d)
    ensures b[0] == d.direction && b[1..9] == U64(d.session) && b[9..17] == U64(d.sequence)
  {
    assert b[0] == b[..17][0] && b[1..9] == b[..17][1..9] && b[9..17] == b[..17][9..17];
  }
}

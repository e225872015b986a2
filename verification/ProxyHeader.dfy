/** The version 2 header of the HAProxy PROXY protocol (src/net/proxy_protocol.c:11-30, 60-90),
    against a reader written from section 2.2 of its specification. */
module ProxyHeader {
  import opened Bytes
  import opened UdpCodec

  // ----- the builder -----

  /** An IPv4-mapped IPv6 address starts with ten zero bytes and two of 0xff. */
  predicate IsV4Mapped(e: Endpoint)
    requires |e.addr| == 16
  {
    e.family == 6 && e.addr[..12] == Pad(10) + [0xff, 0xff]
  }

  function Unmapped(e: Endpoint): (r: Endpoint)
    requires |e.addr| == 16
    ensures |r.addr| == 16
  {
    Endpoint(4, e.addr[12..] + e.addr[4..], e.port)
  }

  datatype Pair = Pair(source: Endpoint, destination: Endpoint)

  ghost predicate PairOk(p: Pair) { |p.source.addr| == 16 && |p.destination.addr| == 16 }

  /** normalize_pair. */
  function Normalized(p: Pair): (r: Option<Pair>)
    requires PairOk(p)
    ensures r.Some? ==> PairOk(r.value) && AddressLength(r.value.source.family) != 0
                        && r.value.destination.family == r.value.source.family
  {
    var q := if IsV4Mapped(p.source) && IsV4Mapped(p.destination)
             then Pair(Unmapped(p.source), Unmapped(p.destination)) else p;
    if q.source.family != q.destination.family || (q.source.family != 4 && q.source.family != 6) then None else Some(q)
  }

  function Signature(): (s: seq<byte>)
    ensures |s| == 12
  {
    [0x0d, 0x0a, 0x0d, 0x0a, 0x00, 0x0d, 0x0a, 0x51, 0x55, 0x49, 0x54, 0x0a]
  }

  function Addresses(p: Pair, n: nat): (b: seq<byte>)
    requires PairOk(p) && n <= 16
    ensures |b| == 2 * n + 4
  {
    p.source.addr[..n] + p.destination.addr[..n] + U16(p.source.port) + U16(p.destination.port)
  }

  function Fixed(family: byte, n: nat): (b: seq<byte>)
    requires n <= 16
    ensures |b| == 16
  {
    Signature() + [0x21, if family == 4 then 0x11 else 0x21] + U16(2 * n + 4)
  }

  /** ct_proxy_protocol_build_v2 into a buffer of `cap` bytes. */
  function BuildV2(p: Pair, cap: nat): (r: Option<seq<byte>>)
    requires PairOk(p)
  {
    match Normalized(p)
    case None => None
    case Some(q) =>
      var n := AddressLength(q.source.family);
      if cap < 16 + 2 * n + 4 then None else Some(Fixed(q.source.family, n) + Addresses(q, n))
  }

  // ----- a reader -----

  /** The endpoints a version 2 TCP header announces, and the bytes behind it. */
  function ReadV2(b: seq<byte>): (r: Option<(Pair, seq<byte>)>)
  {
    if |b| < 16 || b[..12] != Signature() || b[12] != 0x21 then None
    else
      var length := GetU16(b[14..16]);
      var n := if b[13] == 0x11 then 4 else 16;
      if (b[13] != 0x11 && b[13] != 0x21) || length < 2 * n + 4 || |b| < 16 + length then None
      else
        var a, family := b[16..16 + length], if n == 4 then 4 else 6;
        Some((Pair(Endpoint(family, a[..n] + Pad(16 - n), GetU16(a[2 * n..2 * n + 2])),
                   Endpoint(family, a[n..2 * n] + Pad(16 - n), GetU16(a[2 * n + 2..2 * n + 4]))),
              b[16 + length..]))
  }

  // ----- agreement -----

  /** The same endpoint with the bytes its family does not use cleared. */
  function Trimmed(e: Endpoint): (r: Endpoint)
    requires |e.addr| == 16
    ensures |r.addr| == 16
  {
    var n := AddressLength(e.family);
    e.(addr := e.addr[..n] + Pad(16 - n))
  }

  lemma AddressesRead(p: Pair, n: nat)
    requires PairOk(p) && n <= 16
    ensures var a := Addresses(p, n);
      && a[..n] == p.source.addr[..n] && a[n..2 * n] == p.destination.addr[..n]
      && a[2 * n..2 * n + 2] == U16(p.source.port) && a[2 * n + 2..2 * n + 4] == U16(p.destination.port)
  {
  }

  lemma FixedRead(family: byte, n: nat)
    requires n <= 16
    ensures var b := Fixed(family, n);
      && b[..12] == Signature() && b[12] == 0x21 && b[13] == (if family == 4 then 0x11 else 0x21)
      && GetU16(b[14..16]) == 2 * n + 4
  {
    assert Fixed(family, n)[14..16] == U16(2 * n + 4);
    Got16(2 * n + 4);
  }

  /** Reading what was built, whatever follows it, gives the normalized endpoints and leaves
      exactly what follows. */
  lemma ReadBuilt(p: Pair, cap: nat, rest: seq<byte>)
    requires PairOk(p) && BuildV2(p, cap).Some?
    ensures var q := Normalized(p).value;
      ReadV2(BuildV2(p, cap).value + rest) == Some((Pair(Trimmed(q.source), Trimmed(q.destination)), rest))
  {
    var q := Normalized(p).value;
    var n := AddressLength(q.source.family);
    var f, a := Fixed(q.source.family, n), Addresses(q, n);
    var b := f + a + rest;
    FixedRead(q.source.family, n);
    AddressesRead(q, n);
    Got16(q.source.port);
    Got16(q.destination.port);
    assert b[..12] == f[..12] && b[14..16] == f[14..16] && b[12] == f[12] && b[13] == f[13];
    assert b[16..16 + (2 * n + 4)] == a && b[16 + (2 * n + 4)..] == rest;
  }

  /** Two pairs with the same header are the same pair of endpoints after normalization. */
  lemma HeaderIsInjective(p: Pair, q: Pair, cap: nat)
    requires PairOk(p) && PairOk(q) && BuildV2(p, cap).Some? && BuildV2(p, cap) == BuildV2(q, cap)
    ensures Trimmed(Normalized(p).value.source) == Trimmed(Normalized(q).value.source)
    ensures Trimmed(Normalized(p).value.destination) == Trimmed(Normalized(q).value.destination)
  {
    ReadBuilt(p, cap, []);
    ReadBuilt(q, cap, []);
  }

  /** A header is built exactly for two endpoints of one family, given 28 bytes for IPv4 or
      a pair of mapped addresses and 52 bytes for IPv6. */
  lemma BuiltIff(p: Pair, cap: nat)
    requires PairOk(p)
    ensures BuildV2(p, cap).Some? <==>
      && p.source.family == p.destination.family && (p.source.family == 4 || p.source.family == 6)
      && cap >= (if p.source.family == 4 || (IsV4Mapped(p.source) && IsV4Mapped(p.destination)) then 28 else 52)
  {
  }

  // ----- in the buffer -----

  method Copy(out: array<byte>, at: nat, b: seq<byte>)
    requires at + |b| <= out.Length
    modifies out
    ensures out[..] == old(out[..at]) + b + old(out[at + |b|..])
  {
    for i := 0 to |b|
      invariant out[..] == old(out[..at]) + b[..i] + old(out[at + i..])
    {
      out[at + i] := b[i];
      assert b[..i + 1] == b[..i] + [b[i]];
    }
    assert b[..|b|] == b;
  }

  /** The header written into the caller's buffer; nothing behind it changes. */
  method WriteV2(out: array<byte>, p: Pair) returns (length: Option<nat>)
    requires PairOk(p)
    modifies out
    ensures length.None? <==> BuildV2(p, out.Length).None?
    ensures length.None? ==> out[..] == old(out[..])
    ensures length.Some? ==> var b := BuildV2(p, out.Length).value;
      length.value == |b| && out[..] == b + old(out[|b|..])
  {
    var normal := Normalized(p);
    if normal.None? { return None; }
    var q := normal.value;
    var n := AddressLength(q.source.family);
    var total := 16 + 2 * n + 4;
    if out.Length < total { return None; }
    ghost var was := out[..];
    Copy(out, 0, Fixed(q.source.family, n));
    assert out[..16] == Fixed(q.source.family, n) && out[16..] == was[16..];
    Copy(out, 16, Addresses(q, n));
    assert out[..] == Fixed(q.source.family, n) + Addresses(q, n) + was[total..];
    return Some(total);
  }
}

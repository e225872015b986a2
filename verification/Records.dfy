/** Associativity and prefixes of sequences, stated once so that proofs elsewhere
    need not look at elements. */
module Seqs {
  lemma Assoc<T>(a: seq<T>, b: seq<T>, c: seq<T>)
    ensures (a + b) + c == a + (b + c)
  {
  }

  lemma Moved<T>(done: seq<T>, todo: seq<T>, n: nat)
    requires n <= |todo|
    ensures (done + todo[..n]) + todo[n..] == done + todo
  {
    assert todo == todo[..n] + todo[n..];
  }

  lemma Leads<T>(a: seq<T>, b: seq<T>)
    ensures a <= a + b
  {
  }

  lemma LeadsOn<T>(a: seq<T>, b: seq<T>, c: seq<T>)
    requires a <= b
    ensures a <= b + c
  {
  }

  lemma Cut<T>(a: seq<T>, i: nat, j: nat)
    requires i <= j <= |a|
    ensures a == a[..i] + a[i..j] + a[j..]
  {
  }
}

/** Data records: a 12-byte header (length, sequence) and an AEAD box, the header
    decoder of src/protocol/protocol.c:115-127, and the ideal AEAD under which a
    box opens only if the peer sealed exactly it. */
module Records {
  import opened Bytes
  import opened Seqs

  const TAG: nat := 16
  const HEADER: nat := 12

  /** One call of ct_aead_encrypt that succeeded: the sequence number that went into
      the nonce, the associated data, the plaintext and the resulting box. */
  datatype Sealed = Sealed(seqno: nat, ad: seq<byte>, plain: seq<byte>, box: seq<byte>)

  function Header(length: u32, seqno: u64): (h: seq<byte>)
    ensures |h| == HEADER
  {
    U32(length) + U64(seqno)
  }

  /** ct_data_record_header_decode. */
  function DecodeHeader(h: seq<byte>, maxPlain: nat, previous: u64): Option<(nat, u64)>
    requires |h| == HEADER
  {
    var length := GetU32(h[..4]);
    var seqno := GetU64(h[4..]);
    if maxPlain > U32_LIMIT - 1 - TAG || length < TAG || length > maxPlain + TAG
       || previous == U64_MAX || seqno != previous + 1
    then None
    else Some((length, seqno))
  }

  /** The decoder accepts exactly the headers of the next record in sequence with a
      plaintext of at most maxPlain bytes. */
  lemma DecodeAcceptsExactly(h: seq<byte>, maxPlain: nat, previous: u64, n: nat, s: u64)
    requires |h| == HEADER && maxPlain <= U32_LIMIT - 1 - TAG
    ensures DecodeHeader(h, maxPlain, previous) == Some((n, s))
       <==> TAG <= n <= maxPlain + TAG && s == previous + 1 && h == Header(n, s)
  {
    assert h == h[..4] + h[4..];
    Put32(h[..4]); Put64(h[4..]);
    if TAG <= n <= maxPlain + TAG && h == Header(n, s) {
      assert h[..4] == U32(n) && h[4..] == U64(s);
      Got32(n); Got64(s);
    }
  }

  /** The ideal AEAD: opening succeeds only on a box that was sealed under this
      sequence number and associated data, and then returns what was sealed. */
  function Open(log: seq<Sealed>, seqno: nat, ad: seq<byte>, box: seq<byte>): Option<seq<byte>>
    decreases |log|
  {
    if log == [] then None
    else
      var e := log[|log| - 1];
      if e.seqno == seqno && e.ad == ad && e.box == box then Some(e.plain)
      else Open(log[..|log| - 1], seqno, ad, box)
  }

  /** What opens was sealed, with exactly that number, associated data and box. */
  lemma {:induction false} OpenedWasSealed(log: seq<Sealed>, seqno: nat, ad: seq<byte>, box: seq<byte>)
    returns (k: nat)
    requires Open(log, seqno, ad, box).Some?
    ensures k < |log| && log[k] == Sealed(seqno, ad, Open(log, seqno, ad, box).value, box)
    decreases |log|
  {
    var n := |log| - 1;
    if log[n].seqno == seqno && log[n].ad == ad && log[n].box == box {
      k := n;
    } else {
      k := OpenedWasSealed(log[..n], seqno, ad, box);
    }
  }

  /** What was sealed opens. */
  lemma {:induction false} SealedOpens(log: seq<Sealed>, k: nat)
    requires k < |log|
    ensures Open(log, log[k].seqno, log[k].ad, log[k].box).Some?
    decreases |log|
  {
    var n := |log| - 1;
    if k < n { SealedOpens(log[..n], k); assert log[..n][k] == log[k]; }
  }

  /** The records of a log as they travel. */
  function Wire(log: seq<Sealed>): seq<byte>
    decreases |log|
  {
    if log == [] then [] else Wire(log[..|log| - 1]) + log[|log| - 1].ad + log[|log| - 1].box
  }

  /** The plaintext of a log, in order. */
  function Plain(log: seq<Sealed>): seq<byte>
    decreases |log|
  {
    if log == [] then [] else Plain(log[..|log| - 1]) + log[|log| - 1].plain
  }

  /** A record numbered `s` with a plaintext of at most maxPlain bytes, its header
      carrying the length of its box and its number. */
  ghost predicate Framed(e: Sealed, s: nat, maxPlain: nat)
  {
    && e.seqno == s < U64_LIMIT
    && |e.plain| <= maxPlain <= U32_LIMIT - 1 - TAG
    && |e.box| == |e.plain| + TAG
    && e.ad == Header(|e.box|, s)
  }

  /** What encrypt_chunk keeps true of everything it has sealed: record k carries
      sequence number k + 1, so no number, and with it no nonce, is used twice. */
  ghost predicate InSequence(log: seq<Sealed>, maxPlain: nat)
  {
    forall k {:trigger log[k]} :: 0 <= k < |log| ==> Framed(log[k], k + 1, maxPlain)
  }

  lemma {:induction false} WireSplits(a: seq<Sealed>, b: seq<Sealed>)
    ensures Wire(a + b) == Wire(a) + Wire(b)
    decreases |b|
  {
    if b == [] {
      assert a + b == a;
    } else {
      var b', e := b[..|b| - 1], b[|b| - 1];
      WireSplits(a, b');
      assert (a + b)[..|a + b| - 1] == a + b';
      assert Wire(a + b) == Wire(a) + Wire(b') + e.ad + e.box;
    }
  }

  lemma {:induction false} PlainSplits(a: seq<Sealed>, b: seq<Sealed>)
    ensures Plain(a + b) == Plain(a) + Plain(b)
    decreases |b|
  {
    if b == [] {
      assert a + b == a;
    } else {
      var b' := b[..|b| - 1];
      PlainSplits(a, b');
      assert (a + b)[..|a + b| - 1] == a + b';
    }
  }

  /** Sealing one more record. */
  lemma SealedInSequence(log: seq<Sealed>, maxPlain: nat, e: Sealed)
    requires InSequence(log, maxPlain) && Framed(e, |log| + 1, maxPlain)
    ensures InSequence(log + [e], maxPlain)
  {
  }

  lemma WireNext(log: seq<Sealed>, e: Sealed)
    ensures Wire(log + [e]) == Wire(log) + (e.ad + e.box)
    ensures Plain(log + [e]) == Plain(log) + e.plain
  {
    assert (log + [e])[..|log|] == log;
    Assoc(Wire(log), e.ad, e.box);
  }

  lemma WireAt(log: seq<Sealed>, k: nat)
    requires k < |log|
    ensures Wire(log[..k + 1]) == Wire(log[..k]) + log[k].ad + log[k].box
    ensures Plain(log[..k + 1]) == Plain(log[..k]) + log[k].plain
    ensures Wire(log[k..]) == log[k].ad + log[k].box + Wire(log[k + 1..])
    ensures Plain(log[k..]) == log[k].plain + Plain(log[k + 1..])
  {
    assert log[..k + 1][..k] == log[..k];
    var one := [log[k]];
    assert log[k..] == one + log[k + 1..];
    WireSplits(one, log[k + 1..]);
    PlainSplits(one, log[k + 1..]);
    assert one[..0] == [];
  }

  lemma WireCut(log: seq<Sealed>, k: nat)
    requires k <= |log|
    ensures Wire(log) == Wire(log[..k]) + Wire(log[k..])
    ensures Plain(log) == Plain(log[..k]) + Plain(log[k..])
  {
    assert log == log[..k] + log[k..];
    WireSplits(log[..k], log[k..]);
    PlainSplits(log[..k], log[k..]);
  }

  /** A reference reading of a byte stream: the whole records at its front, cut by
      their length fields alone. */
  function Whole(stream: seq<byte>): (n: nat)
    decreases |stream|
  {
    if |stream| < HEADER then 0
    else
      var n := GetU32(stream[..4]);
      if |stream| < HEADER + n then 0 else 1 + Whole(stream[HEADER + n..])
  }

  lemma WholeCons(stream: seq<byte>, box: seq<byte>, seqno: u64, tail: seq<byte>)
    requires |box| < U32_LIMIT && stream == Header(|box|, seqno) + box + tail
    ensures Whole(stream) == 1 + Whole(tail)
  {
    assert stream[..4] == U32(|box|);
    Got32(|box|);
    assert stream[HEADER + |box|..] == tail;
  }

  /** A stream made of sealed records and an incomplete rest holds exactly those
      records. */
  lemma {:induction false} WholeRecords(part: seq<Sealed>, maxPlain: nat, rest: seq<byte>)
    requires forall e :: e in part ==> Framed(e, e.seqno, maxPlain)
    requires Whole(rest) == 0
    ensures Whole(Wire(part) + rest) == |part|
    decreases |part|
  {
    if part == [] {
      assert Wire(part) + rest == rest;
    } else {
      WholeRecords(part[1..], maxPlain, rest);
      WholeFront(part, maxPlain, rest);
    }
  }

  lemma WholeFront(part: seq<Sealed>, maxPlain: nat, rest: seq<byte>)
    requires part != [] && Framed(part[0], part[0].seqno, maxPlain)
    ensures Whole(Wire(part) + rest) == 1 + Whole(Wire(part[1..]) + rest)
  {
    var e := part[0];
    FrontOfWire(part, rest);
    WholeCons(Wire(part) + rest, e.box, e.seqno, Wire(part[1..]) + rest);
  }

  lemma FrontOfWire(part: seq<Sealed>, rest: seq<byte>)
    requires part != []
    ensures Wire(part) + rest == part[0].ad + part[0].box + (Wire(part[1..]) + rest)
  {
    WireAt(part, 0);
    assert part[0..] == part;
  }
}

/** The fixed-capacity byte ring (src/util/ring.c). */
module Rings {
  import opened Bytes

  function Min(a: nat, b: nat): nat { if a < b then a else b }

  /** What a write of `src` leaves in a ring of capacity `cap` that held `content`:
      as much of `src` as there is room for, appended. */
  function Appended(content: seq<byte>, src: seq<byte>, cap: nat): seq<byte>
    requires |content| <= cap
  {
    content + src[..Min(|src|, cap - |content|)]
  }

  class Ring {
    const data: array<byte>
    const cap: nat
    var head: nat
    var len: nat

    ghost predicate Valid()
      reads this
    {
      0 < cap == data.Length && head < cap && len <= cap
    }

    /** The buffer index of the `i`-th stored byte. */
    ghost function Slot(i: nat): (k: nat)
      requires Valid() && i < cap
      reads this
      ensures k < cap
    {
      if head + i < cap then head + i else head + i - cap
    }

    ghost function Content(): (s: seq<byte>)
      requires Valid()
      reads this, data
      ensures |s| == len
    {
      seq(len, i requires 0 <= i < len && Valid() reads this, data => data[Slot(i)])
    }

    constructor (capacity: nat)
      requires capacity > 0
      ensures Valid() && fresh(data) && cap == capacity && Content() == []
    {
      data := new byte[capacity];
      cap := capacity;
      head, len := 0, 0;
    }

    /** A second view of the same storage, as a struct copy makes in C. */
    constructor View(of: Ring)
      requires of.Valid()
      ensures Valid() && data == of.data && cap == of.cap && Content() == of.Content()
    {
      data := of.data;
      cap := of.cap;
      head, len := of.head, of.len;
    }

    method Write(src: seq<byte>) returns (n: nat)
      requires Valid()
      modifies this`len, data
      ensures Valid()
      ensures n == Min(|src|, cap - old(len))
      ensures Content() == Appended(old(Content()), src, cap)
    {
      n := |src|;
      if n > cap - len { n := cap - len; }
      ModOnce(head + len, cap);
      var tail := (head + len) % cap;
      var a := cap - tail;
      if a > n { a := n; }
      forall i | 0 <= i < a { data[tail + i] := src[i]; }
      forall i | 0 <= i < n - a { data[i] := src[a + i]; }
      len := len + n;
      forall i | 0 <= i < len
        ensures Content()[i] == Appended(old(Content()), src, cap)[i]
      {
        assert i < old(len) ==> old(Content())[i] == old(data[Slot(i)]);
      }
    }

    method Read(n0: nat) returns (dst: seq<byte>)
      requires Valid()
      modifies this`head, this`len
      ensures Valid()
      ensures dst == old(Content())[..Min(n0, old(len))]
      ensures Content() == old(Content())[Min(n0, old(len))..]
    {
      var n := n0;
      if n > len { n := len; }
      var a := cap - head;
      if a > n { a := n; }
      dst := data[head..head + a] + data[..n - a];
      forall i | 0 <= i < n ensures dst[i] == Content()[i] { }
      ModOnce(head + n, cap);
      head := (head + n) % cap;
      len := len - n;
      ghost var was := old(Content());
      forall i | 0 <= i < len ensures Content()[i] == was[n + i] { }
    }

    /** How many bytes one send call can be handed: the contiguous run at the head. */
    ghost function Run(): nat
      reads this
    {
      if head <= cap then Min(cap - head, len) else 0
    }

    method Peek() returns (p: seq<byte>)
      requires Valid()
      ensures p == Content()[..Run()]
    {
      var n := cap - head;
      if n >= len { n := len; }
      p := data[head..head + n];
    }

    /** ct_ring_free: the storage is wiped and the ring left empty. */
    method Free()
      requires Valid()
      modifies this, data
      ensures Valid() && Content() == []
    {
      forall i | 0 <= i < data.Length { data[i] := 0; }
      head, len := 0, 0;
    }

    method Consume(n0: nat)
      requires Valid()
      modifies this`head, this`len
      ensures Valid()
      ensures Content() == old(Content())[Min(n0, old(len))..]
    {
      var n := n0;
      if n > len { n := len; }
      ModOnce(head + n, cap);
      head := (head + n) % cap;
      len := len - n;
    }
  }

  lemma ModOnce(x: nat, m: nat)
    requires 0 < m && x < 2 * m
    ensures x % m == if x < m then x else x - m
  {
  }

  lemma AppendedWhole(content: seq<byte>, src: seq<byte>, cap: nat)
    requires |content| <= cap
    ensures |content| + |src| <= cap ==> Appended(content, src, cap) == content + src
  {
  }
}

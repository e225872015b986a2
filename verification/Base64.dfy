/** Key-file base64 (src/crypto/crypto_monocypher.c:18-91): the alphabet and padding of
    section 4 of RFC 4648, with the strictness about spare bits of its section 3.5. */
module Base64 {
  import opened Bytes

  type digit = x: int | 0 <= x < 64

  const PAD: char := '='

  /** b64_alphabet. */
  function Digit(v: digit): char
  {
    if v < 26 then ('A' as int + v) as char
    else if v < 52 then ('a' as int + (v - 26)) as char
    else if v < 62 then ('0' as int + (v - 52)) as char
    else if v == 62 then '+' else '/'
  }

  /** b64_value: -1 for a character outside the alphabet. */
  function DigitValue(c: char): int
  {
    if 'A' <= c <= 'Z' then c as int - 'A' as int
    else if 'a' <= c <= 'z' then c as int - 'a' as int + 26
    else if '0' <= c <= '9' then c as int - '0' as int + 52
    else if c == '+' then 62
    else if c == '/' then 63
    else -1
  }

  lemma DigitInverse(c: char, v: digit)
    ensures DigitValue(c) == v <==> c == Digit(v)
    ensures DigitValue(PAD) == -1
  {
  }

  // ----- one group of up to three bytes -----

  function Word(x: int, y: int, z: int): int { x * 0x1_0000 + y * 0x100 + z }

  predicate IsGroup(g: seq<byte>) { 1 <= |g| <= 3 }

  function EncodeGroup(g: seq<byte>): (q: string)
    requires IsGroup(g)
    ensures |q| == 4
  {
    var v := Word(g[0], if |g| > 1 then g[1] else 0, if |g| > 2 then g[2] else 0);
    [Digit(v / 0x4_0000 % 64), Digit(v / 0x1000 % 64),
     if |g| > 1 then Digit(v / 0x40 % 64) else PAD,
     if |g| > 2 then Digit(v % 64) else PAD]
  }

  /** A character of a group: its digit value, -2 for padding, -1 for anything else. */
  function Mark(c: char): int { if c == PAD then -2 else DigitValue(c) }

  /** One turn of b64_decode's loop; `last` says that these four characters end the text. */
  function DecodeGroup(q: string, last: bool): Option<seq<byte>>
    requires |q| == 4
  {
    DecodeMarks(DigitValue(q[0]), DigitValue(q[1]), Mark(q[2]), Mark(q[3]), last)
  }

  function DecodeMarks(a: int, b: int, c: int, d: int, last: bool): Option<seq<byte>>
  {
    if a < 0 || b < 0 || c == -1 || d == -1 || (c == -2 && d != -2)
       || ((c == -2 || d == -2) && !last) || (c == -2 && b % 16 != 0) || (d == -2 && c >= 0 && c % 4 != 0)
    then None
    else
      var v := a * 0x4_0000 + b * 0x1000 + (if c >= 0 then c * 0x40 else 0) + (if d >= 0 then d else 0);
      Some([v / 0x1_0000 % 256] + (if c >= 0 then [v / 0x100 % 256] else [])
           + (if d >= 0 then [v % 256] else []))
  }

  lemma MulAtLeast(k: int, m: int)
    requires k >= 1 && m > 0
    ensures k * m >= m
  {
  }

  lemma DivIs(v: int, m: int, q: int, r: int)
    requires m > 0 && 0 <= r < m && v == q * m + r
    ensures v / m == q && v % m == r
  {
    var q', r' := v / m, v % m;
    assert v == m * q' + r';
    assert (q - q') * m == r' - r && (q' - q) * m == r - r';
    if q > q' { MulAtLeast(q - q', m); }
    if q < q' { MulAtLeast(q' - q, m); }
  }

  lemma WordDigits(x: byte, y: byte, z: byte)
    ensures var v := Word(x, y, z);
      && v / 0x4_0000 % 64 == x / 4
      && v / 0x1000 % 64 == x % 4 * 16 + y / 16
      && v / 0x40 % 64 == y % 16 * 4 + z / 64
      && v % 64 == z % 64
  {
    var v := Word(x, y, z);
    var a, b, c, d := x / 4, x % 4 * 16 + y / 16, y % 16 * 4 + z / 64, z % 64;
    assert v == a * 0x4_0000 + b * 0x1000 + c * 0x40 + d;
    WordSplits(a, b, c, d);
  }

  /** The 24-bit word of four digits, cut at its six-bit boundaries. */
  lemma WordSplits(a: digit, b: digit, c: digit, d: digit)
    ensures var v := a * 0x4_0000 + b * 0x1000 + c * 0x40 + d;
      v / 0x4_0000 % 64 == a && v / 0x1000 % 64 == b && v / 0x40 % 64 == c && v % 64 == d
  {
    var v := a * 0x4_0000 + b * 0x1000 + c * 0x40 + d;
    DivIs(v, 0x4_0000, a, b * 0x1000 + c * 0x40 + d);
    DivIs(v, 0x1000, a * 64 + b, c * 0x40 + d);
    DivIs(a * 64 + b, 64, a, b);
    DivIs(v, 0x40, a * 0x1000 + b * 64 + c, d);
    DivIs(a * 0x1000 + b * 64 + c, 64, a * 64 + b, c);
  }

  lemma WordBytes(a: digit, b: digit, c: digit, d: digit)
    ensures var v := a * 0x4_0000 + b * 0x1000 + c * 0x40 + d;
      && v / 0x1_0000 % 256 == a * 4 + b / 16
      && v / 0x100 % 256 == b % 16 * 16 + c / 4
      && v % 256 == c % 4 * 64 + d
  {
    var v := a * 0x4_0000 + b * 0x1000 + c * 0x40 + d;
    var x, y, z := a * 4 + b / 16, b % 16 * 16 + c / 4, c % 4 * 64 + d;
    assert v == x * 0x1_0000 + y * 0x100 + z;
    DivIs(v, 0x1_0000, x, y * 0x100 + z);
    DivIs(x, 256, 0, x);
    DivIs(v, 0x100, x * 256 + y, z);
    DivIs(x * 256 + y, 256, x, y);
  }

  // The six-bit digits of a group, and the group of given digits, without the 24-bit word.
  function Digits3(x: byte, y: byte, z: byte): (int, int, int, int)
  {
    (x / 4, x % 4 * 16 + y / 16, y % 16 * 4 + z / 64, z % 64)
  }

  lemma MarksOf(q: string, a: digit, b: digit)
    requires |q| == 4
    ensures DigitValue(q[0]) == a <==> q[0] == Digit(a)
    ensures DigitValue(q[1]) == b <==> q[1] == Digit(b)
  {
    DigitInverse(q[0], a); DigitInverse(q[1], b);
  }

  lemma MarkIs(c: char, v: digit)
    ensures Mark(c) == v <==> c == Digit(v)
    ensures Mark(c) == -2 <==> c == PAD
  {
    DigitInverse(c, v);
  }

  /** What the marks of an encoded group are. */
  ghost predicate MarksMatch(a: int, b: int, c: int, d: int, g: seq<byte>)
    requires 1 <= |g| <= 3
  {
    var e := Digits3(g[0], if |g| > 1 then g[1] else 0, if |g| > 2 then g[2] else 0);
    && a == e.0 && b == e.1
    && c == (if |g| > 1 then e.2 else -2)
    && d == (if |g| > 2 then e.3 else -2)
  }

  lemma EncodedMarks(q: string, g: seq<byte>)
    requires |q| == 4 && 1 <= |g| <= 3
    ensures q == EncodeGroup(g) <==>
            MarksMatch(DigitValue(q[0]), DigitValue(q[1]), Mark(q[2]), Mark(q[3]), g)
  {
    var y: byte := if |g| > 1 then g[1] else 0;
    var z: byte := if |g| > 2 then g[2] else 0;
    WordDigits(g[0], y, z);
    var e := Digits3(g[0], y, z);
    MarksOf(q, e.0, e.1);
    MarkIs(q[2], e.2);
    MarkIs(q[3], e.3);
    assert q == [q[0], q[1], q[2], q[3]];
  }

  lemma DecodeDigits(a: digit, b: digit, c: digit, d: digit, last: bool)
    ensures DecodeMarks(a, b, c, d, last)
         == Some([a * 4 + b / 16, b % 16 * 16 + c / 4, c % 4 * 64 + d])
  {
    WordBytes(a, b, c, d);
    var x, y, z := a * 4 + b / 16, b % 16 * 16 + c / 4, c % 4 * 64 + d;
    assert [x] + [y] + [z] == [x, y, z];
  }

  lemma DecodedMarks3(a: digit, b: digit, c: digit, d: digit, last: bool, g: seq<byte>)
    ensures DecodeMarks(a, b, c, d, last) == Some(g) <==> |g| == 3 && MarksMatch(a, b, c, d, g)
  {
    DecodeDigits(a, b, c, d, last);
    if |g| == 3 { Digits3Inverse(a, b, c, d, g[0], g[1], g[2]); assert g == [g[0], g[1], g[2]]; }
  }

  /** Digits and bytes determine each other. */
  lemma Digits3Inverse(a: digit, b: digit, c: digit, d: digit, x: byte, y: byte, z: byte)
    ensures (a, b, c, d) == Digits3(x, y, z) <==>
            x == a * 4 + b / 16 && y == b % 16 * 16 + c / 4 && z == c % 4 * 64 + d
  {
    if (a, b, c, d) == Digits3(x, y, z) {
      DivIs(b, 16, x % 4, y / 16);
      DivIs(c, 4, y % 16, z / 64);
    }
    if x == a * 4 + b / 16 && y == b % 16 * 16 + c / 4 && z == c % 4 * 64 + d {
      DivIs(x, 4, a, b / 16);
      DivIs(y, 16, b % 16, c / 4);
      DivIs(z, 64, c % 4, d);
    }
  }

  lemma DecodedMarks2(a: digit, b: digit, c: digit, last: bool, g: seq<byte>)
    ensures DecodeMarks(a, b, c, -2, last) == Some(g) <==> last && |g| == 2 && MarksMatch(a, b, c, -2, g)
  {
    DecodeTwo(a, b, c, last);
    if |g| == 2 { Digits3Inverse(a, b, c, 0, g[0], g[1], 0); assert g == [g[0], g[1]]; }
  }

  lemma DecodeTwo(a: digit, b: digit, c: digit, last: bool)
    ensures DecodeMarks(a, b, c, -2, last)
         == if last && c % 4 == 0 then Some([a * 4 + b / 16, b % 16 * 16 + c / 4]) else None
  {
    WordBytes(a, b, c, 0);
    var x, y := a * 4 + b / 16, b % 16 * 16 + c / 4;
    assert [x] + [y] + [] == [x, y];
  }

  lemma DecodedMarks1(a: digit, b: digit, last: bool, g: seq<byte>)
    ensures DecodeMarks(a, b, -2, -2, last) == Some(g) <==> last && |g| == 1 && MarksMatch(a, b, -2, -2, g)
  {
    WordBytes(a, b, 0, 0);
    assert [a * 4 + b / 16] + [] + [] == [a * 4 + b / 16];
    if |g| == 1 { Digits3Inverse(a, b, 0, 0, g[0], 0, 0); assert g == [g[0]]; }
  }

  /** A group decodes to `g` exactly when it is the encoding of `g`; padding only at the end. */
  lemma GroupInverse(q: string, last: bool, g: seq<byte>)
    requires |q| == 4
    ensures DecodeGroup(q, last) == Some(g) <==>
            1 <= |g| <= 3 && q == EncodeGroup(g) && (|g| < 3 ==> last)
  {
    var a, b, c, d := DigitValue(q[0]), DigitValue(q[1]), Mark(q[2]), Mark(q[3]);
    if 1 <= |g| <= 3 { EncodedMarks(q, g); }
    if a >= 0 && b >= 0 {
      if c >= 0 && d >= 0 { DecodedMarks3(a, b, c, d, last, g); }
      else if c >= 0 && d == -2 { DecodedMarks2(a, b, c, last, g); }
      else if c == -2 && d == -2 { DecodedMarks1(a, b, last, g); }
    }
  }

  // ----- whole texts, for any codec of groups -----

  type Encoder = seq<byte> -> string
  type Decoder = (string, bool) -> Option<seq<byte>>

  /** A group codec: four characters for each group, decoded exactly from its encoding,
      and a short group only where the text ends. */
  ghost predicate Codec(enc: Encoder, dec: Decoder)
  {
    && (forall g {:trigger enc(g)} :: IsGroup(g) ==> |enc(g)| == 4)
    && (forall q: string, last, g: seq<byte> {:trigger dec(q, last), enc(g)} ::
          |q| == 4 ==> (dec(q, last) == Some(g) <==> IsGroup(g) && q == enc(g) && (|g| < 3 ==> last)))
    && (forall q: string, last {:trigger dec(q, last)} ::
          |q| == 4 && dec(q, last).Some? ==> IsGroup(dec(q, last).value))
  }

  function Front(b: seq<byte>): nat { if |b| < 3 then |b| else 3 }

  function EncodeWith(enc: Encoder, b: seq<byte>): string
    decreases |b|
  {
    if b == [] then "" else enc(b[..Front(b)]) + EncodeWith(enc, b[Front(b)..])
  }

  /** The loop of b64_decode from some group on. */
  function DecodeWith(dec: Decoder, t: string): Option<seq<byte>>
    requires |t| % 4 == 0
    decreases |t|
  {
    if t == "" then Some([])
    else
      var g := dec(t[..4], |t| == 4);
      var r := DecodeWith(dec, t[4..]);
      if g.None? || r.None? then None else Some(g.value + r.value)
  }

  lemma {:induction false} DecodesEncoded(enc: Encoder, dec: Decoder, t: string, b: seq<byte>)
    requires Codec(enc, dec) && |t| % 4 == 0 && t == EncodeWith(enc, b)
    ensures DecodeWith(dec, t) == Some(b)
    decreases |t|
  {
    if b != [] {
      var g, r := b[..Front(b)], b[Front(b)..];
      assert IsGroup(g) && g + r == b;
      assert t[..4] == enc(g) && t[4..] == EncodeWith(enc, r);
      DecodesEncoded(enc, dec, t[4..], r);
      assert |g| < 3 ==> r == [];
      assert dec(t[..4], |t| == 4) == Some(g);
    }
  }

  lemma {:induction false} EncodesDecoded(enc: Encoder, dec: Decoder, t: string, b: seq<byte>)
    requires Codec(enc, dec) && |t| % 4 == 0 && DecodeWith(dec, t) == Some(b)
    ensures t == EncodeWith(enc, b)
    decreases |t|
  {
    if t != "" {
      var g := dec(t[..4], |t| == 4).value;
      var r := DecodeWith(dec, t[4..]).value;
      EncodesDecoded(enc, dec, t[4..], r);
      assert IsGroup(g) && t[..4] == enc(g);
      assert |g| < 3 ==> t[4..] == "" && r == [];
      assert b[..Front(b)] == g && b[Front(b)..] == r;
      assert t == t[..4] + t[4..];
    }
  }

  // ----- base64 -----

  const Enc: Encoder := (g: seq<byte>) => if IsGroup(g) then EncodeGroup(g) else ""
  const Dec: Decoder := (q: string, last: bool) => if |q| == 4 then DecodeGroup(q, last) else None

  lemma Base64IsCodec()
    ensures Codec(Enc, Dec)
  {
    forall q: string, last: bool, g: seq<byte> | |q| == 4
      ensures Dec(q, last) == Some(g) <==> IsGroup(g) && q == Enc(g) && (|g| < 3 ==> last)
    {
      GroupInverse(q, last, g);
    }
  }

  function Encode(b: seq<byte>): string { EncodeWith(Enc, b) }

  function Decode(t: string): Option<seq<byte>>
  {
    if |t| == 0 || |t| % 4 != 0 then None else DecodeWith(Dec, t)
  }

  /** How many groups `n` bytes make: n / 3 rounded up. */
  function Groups(n: nat): nat { if n == 0 then 0 else if n < 3 then 1 else 1 + Groups(n - 3) }

  lemma {:induction false} GroupsRoundsUp(n: nat)
    ensures Groups(n) == (n + 2) / 3
  {
    if n >= 3 { GroupsRoundsUp(n - 3); }
  }

  lemma {:induction false} EncodeLength(enc: Encoder, dec: Decoder, b: seq<byte>)
    requires Codec(enc, dec)
    ensures |EncodeWith(enc, b)| == 4 * Groups(|b|)
    decreases |b|
  {
    if b != [] {
      EncodeLength(enc, dec, b[Front(b)..]);
      assert IsGroup(b[..Front(b)]);
    }
  }

  lemma CodecInverse(enc: Encoder, dec: Decoder, t: string, b: seq<byte>)
    requires Codec(enc, dec)
    ensures (|t| % 4 == 0 && DecodeWith(dec, t) == Some(b)) <==> t == EncodeWith(enc, b)
  {
    EncodeLength(enc, dec, b);
    if t == EncodeWith(enc, b) { DecodesEncoded(enc, dec, t, b); }
    if |t| % 4 == 0 && DecodeWith(dec, t) == Some(b) { EncodesDecoded(enc, dec, t, b); }
  }

  /** Decoding accepts exactly the encodings of nonempty byte strings, and returns the
      string: encode and decode are inverse, and only canonical text is accepted. */
  lemma DecodeIffEncoded(t: string, b: seq<byte>)
    ensures Decode(t) == Some(b) <==> b != [] && t == Encode(b)
  {
    Base64IsCodec();
    CodecInverse(Enc, Dec, t, b);
    EncodeLength(Enc, Dec, b);
  }

  lemma EncodedLength(b: seq<byte>)
    ensures |Encode(b)| == 4 * Groups(|b|) == (|b| + 2) / 3 * 4
  {
    Base64IsCodec();
    GroupsRoundsUp(|b|);
    EncodeLength(Enc, Dec, b);
  }

  // ----- the loops, writing into buffers -----

  lemma EncodeFrom(enc: Encoder, input: seq<byte>, i: nat)
    requires i < |input|
    ensures var n := if |input| - i >= 3 then 3 else |input| - i;
      EncodeWith(enc, input[i..]) == enc(input[i..i + n]) + EncodeWith(enc, input[i + n..])
  {
    var n := if |input| - i >= 3 then 3 else |input| - i;
    assert input[i..][..n] == input[i..i + n] && input[i..][n..] == input[i + n..];
  }

  /** The four characters of one group. */
  method PutGroup(out: array<char>, o: nat, g: seq<byte>)
    requires IsGroup(g) && o + 4 <= out.Length
    modifies out
    ensures out[..o + 4] == old(out[..o]) + Enc(g)
  {
    var left := |g|;
    var v: int := g[0];
    v := v * 0x1_0000;
    if left > 1 { v := v + 0x100 * (g[1] as int); }
    if left > 2 { v := v + (g[2] as int); }
    assert v == Word(g[0], if |g| > 1 then g[1] else 0, if |g| > 2 then g[2] else 0);
    out[o] := Digit(v / 0x4_0000 % 64);
    out[o + 1] := Digit(v / 0x1000 % 64);
    out[o + 2] := if left > 1 then Digit(v / 0x40 % 64) else PAD;
    out[o + 3] := if left > 2 then Digit(v % 64) else PAD;
    assert out[o..o + 4] == EncodeGroup(g);
    assert out[..o + 4] == out[..o] + out[o..o + 4];
  }

  /** The characters of the text and its terminator. */
  method Needed(input: seq<byte>) returns (n: nat)
    ensures n == |Encode(input)| + 1
  {
    EncodedLength(input);
    n := (|input| + 2) / 3 * 4 + 1;
  }

  /** The next group of the input written behind the text so far. */
  method PutNext(out: array<char>, o: nat, input: seq<byte>, i: nat) returns (n: nat)
    requires o <= out.Length && i < |input| && EncodedSoFar(Enc, input, i, out[..o])
    requires out.Length > |EncodeWith(Enc, input)|
    modifies out
    ensures n > 0 && o + 4 < out.Length && EncodedSoFar(Enc, input, i + n, out[..o + 4])
  {
    n := if |input| - i >= 3 then 3 else |input| - i;
    EncodedMore(Enc, input, i, out[..o]);
    PutGroup(out, o, input[i..i + n]);
  }

  method EncodeInto(out: array<char>, input: seq<byte>) returns (rc: int)
    modifies out
    ensures rc == 0 <==> out.Length >= |Encode(input)| + 1
    ensures rc == 0 ==> out[..|Encode(input)|] == Encode(input) && out[|Encode(input)|] == '\0'
    ensures rc != 0 ==> out[..] == old(out[..])
  {
    var needed := Needed(input);
    if out.Length < needed { return -1; }
    var i, o := 0, 0;
    EncodedNone(Enc, input);
    while i < |input|
      invariant 0 <= i <= |input| && o < out.Length && EncodedSoFar(Enc, input, i, out[..o])
      decreases |input| - i
    {
      var n := PutNext(out, o, input, i);
      o := o + 4;
      i := i + n;
    }
    EncodedAll(Enc, input, out[..o]);
    out[o] := '\0';
    rc := 0;
  }

  ghost predicate EncodedSoFar(enc: Encoder, input: seq<byte>, i: nat, done: string)
  {
    i <= |input| && done + EncodeWith(enc, input[i..]) == EncodeWith(enc, input)
  }

  lemma EncodedNone(enc: Encoder, input: seq<byte>)
    ensures EncodedSoFar(enc, input, 0, [])
  {
    assert input[0..] == input && [] + EncodeWith(enc, input) == EncodeWith(enc, input);
  }

  lemma EncodedAll(enc: Encoder, input: seq<byte>, done: string)
    requires EncodedSoFar(enc, input, |input|, done)
    ensures done == EncodeWith(enc, input)
  {
    assert input[|input|..] == [] && done + [] == done;
  }

  lemma EncodedMore(enc: Encoder, input: seq<byte>, i: nat, done: string)
    requires EncodedSoFar(enc, input, i, done) && i < |input|
    ensures var n := if |input| - i >= 3 then 3 else |input| - i;
      EncodedSoFar(enc, input, i + n, done + enc(input[i..i + n]))
      && |done + enc(input[i..i + n])| <= |EncodeWith(enc, input)|
  {
    var n := if |input| - i >= 3 then 3 else |input| - i;
    EncodeFrom(enc, input, i);
    var g, rest := enc(input[i..i + n]), EncodeWith(enc, input[i + n..]);
    assert (done + g) + rest == done + (g + rest);
  }

  lemma DecodeFrom(dec: Decoder, t: string, i: nat)
    requires |t| % 4 == 0 && i % 4 == 0 && i < |t|
    ensures i + 4 <= |t| && |t[i..]| % 4 == 0 && |t[i + 4..]| % 4 == 0
    ensures var g, r := dec(t[i..i + 4], i + 4 == |t|), DecodeWith(dec, t[i + 4..]);
      DecodeWith(dec, t[i..]) == if g.None? || r.None? then None else Some(g.value + r.value)
  {
    assert t[i..][..4] == t[i..i + 4] && t[i..][4..] == t[i + 4..];
  }

  /** The bytes of one group, as many as the buffer still has room for. */
  method TakeGroup(out: array<byte>, o: nat, g: seq<byte>) returns (ok: bool)
    requires IsGroup(g) && o <= out.Length
    modifies out
    ensures ok <==> o + |g| <= out.Length
    ensures ok ==> out[..o + |g|] == old(out[..o]) + g
  {
    if o >= out.Length { return false; }
    out[o] := g[0];
    if |g| > 1 {
      if o + 1 >= out.Length { return false; }
      out[o + 1] := g[1];
    }
    if |g| > 2 {
      if o + 2 >= out.Length { return false; }
      out[o + 2] := g[2];
    }
    assert out[o..o + |g|] == g;
    assert out[..o + |g|] == out[..o] + out[o..o + |g|];
    ok := true;
  }

  /** How much is decoded, and that it is what the whole text decodes to. */
  ghost predicate DecodedSoFar(dec: Decoder, t: string, i: nat, done: seq<byte>)
  {
    && |t| % 4 == 0 && i % 4 == 0 && i <= |t| && |t[i..]| % 4 == 0
    && (DecodeWith(dec, t).Some? <==> DecodeWith(dec, t[i..]).Some?)
    && (DecodeWith(dec, t).Some? ==> DecodeWith(dec, t).value == done + DecodeWith(dec, t[i..]).value)
  }

  lemma DecodedMore(dec: Decoder, t: string, i: nat, done: seq<byte>, g: seq<byte>)
    requires DecodedSoFar(dec, t, i, done) && i + 4 <= |t|
    requires dec(t[i..i + 4], i + 4 == |t|) == Some(g)
    ensures DecodedSoFar(dec, t, i + 4, done + g)
  {
    DecodeFrom(dec, t, i);
    if DecodeWith(dec, t[i + 4..]).Some? {
      var r := DecodeWith(dec, t[i + 4..]).value;
      assert done + (g + r) == done + g + r;
    }
  }

  lemma DecodedIsGroup(q: string, last: bool)
    requires |q| == 4 && DecodeGroup(q, last).Some?
    ensures IsGroup(DecodeGroup(q, last).value)
  {
    GroupInverse(q, last, DecodeGroup(q, last).value);
  }

  /** Fills a buffer of exactly the expected length, or fails. */
  method DecodeInto(out: array<byte>, t: string) returns (rc: int)
    modifies out
    ensures rc == 0 <==> Decode(t).Some? && |Decode(t).value| == out.Length
    ensures rc == 0 ==> out[..] == Decode(t).value
  {
    if |t| == 0 || |t| % 4 != 0 { return -1; }
    var i, o := 0, 0;
    assert t[0..] == t;
    while i < |t|
      invariant 0 <= i <= |t| && i % 4 == 0 && 0 <= o <= out.Length
      invariant DecodedSoFar(Dec, t, i, out[..o])
    {
      DecodeFrom(Dec, t, i);
      var g := DecodeGroup(t[i..i + 4], i + 4 == |t|);
      assert g == Dec(t[i..i + 4], i + 4 == |t|);
      if g.None? { return -1; }
      DecodedIsGroup(t[i..i + 4], i + 4 == |t|);
      DecodedMore(Dec, t, i, out[..o], g.value);
      var ok := TakeGroup(out, o, g.value);
      if !ok { return -1; }
      o := o + |g.value|;
      i := i + 4;
    }
    assert t[i..] == "" && out[..o] + [] == out[..o];
    rc := if o == out.Length then 0 else -1;
  }
}

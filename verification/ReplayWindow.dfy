/** The sliding windows that refuse replayed numbers: one for work connections
    (src/net/net.c:794-811) and one, written twice, for UDP
    (src/client/client.c:54-71, src/server/server.c:217-234). */
module ReplayWindow {
  import opened Bytes

  // ----- the bits of a 64-bit word -----

  /** bits & (1 << age) */
  predicate Has(bits: nat, age: nat)
    decreases age
  {
    if age == 0 then bits % 2 == 1 else Has(bits / 2, age - 1)
  }

  /** bits | (1 << age) */
  function Set(bits: nat, age: nat): nat
    decreases age
  {
    if age == 0 then bits - bits % 2 + 1 else 2 * Set(bits / 2, age - 1) + bits % 2
  }

  /** bits << k in 64 bits: doubled k times, what leaves the top is lost. */
  function Shl(bits: u64, k: nat): u64
    decreases k
  {
    if k == 0 then bits else (2 * Shl(bits, k - 1)) % U64_LIMIT
  }

  function Pow2(n: nat): (p: nat)
    ensures p >= 1
  {
    if n == 0 then 1 else 2 * Pow2(n - 1)
  }

  lemma {:induction false} HasSet(bits: nat, k: nat, age: nat)
    ensures Has(Set(bits, k), age) <==> age == k || Has(bits, age)
    decreases k
  {
    if k > 0 && age > 0 { HasSet(bits / 2, k - 1, age - 1); }
  }

  lemma {:induction false} SetFits(bits: nat, k: nat, n: nat)
    requires bits < Pow2(n) && k < n
    ensures Set(bits, k) < Pow2(n)
    decreases k
  {
    var m, half := Pow2(n - 1), bits / 2;
    assert bits == 2 * half + bits % 2 && half < m;
    if k > 0 { SetFits(half, k - 1, n - 1); }
  }

  lemma {:induction false} HasWithoutTop(x: nat, n: nat, age: nat)
    requires Pow2(n) <= x && age < n
    ensures Has(x - Pow2(n), age) <==> Has(x, age)
    decreases age
  {
    assert Pow2(n) == 2 * Pow2(n - 1);
    if age > 0 { HasWithoutTop(x / 2, n - 1, age - 1); }
  }

  lemma {:induction false} Pow2Add(a: nat, b: nat)
    ensures Pow2(a + b) == Pow2(a) * Pow2(b)
  {
    if a > 0 { Pow2Add(a - 1, b); }
  }

  lemma Pow2Of63()
    ensures Pow2(63) == U64_LIMIT / 2 && Pow2(64) == U64_LIMIT
  {
    assert Pow2(7) == 128 && Pow2(8) == 256;
    Pow2Add(8, 8);
    Pow2Add(16, 16);
    Pow2Add(32, 32);
    assert Pow2(64) == 2 * Pow2(63);
  }

  lemma HasDouble(x: u64, age: nat)
    requires age < 64
    ensures Has((2 * x) % U64_LIMIT, age) <==> age >= 1 && Has(x, age - 1)
  {
    Pow2Of63();
    var y := (2 * x) % U64_LIMIT;
    assert y == if x < Pow2(63) then 2 * x else 2 * (x - Pow2(63));
    if age >= 1 {
      assert y / 2 == if x < Pow2(63) then x else x - Pow2(63);
      if x >= Pow2(63) { HasWithoutTop(x, 63, age - 1); }
    }
  }

  /** Shifting left by k moves every mark k places and clears the low ones. */
  lemma {:induction false} HasShl(bits: u64, k: nat, age: nat)
    requires age < 64
    ensures Has(Shl(bits, k), age) <==> age >= k && Has(bits, age - k)
    decreases k
  {
    if k > 0 {
      HasDouble(Shl(bits, k - 1), age);
      if age >= 1 { HasShl(bits, k - 1, age - 1); }
    }
  }

  lemma {:induction false} NothingMarked(age: nat)
    ensures !Has(0, age)
    decreases age
  {
    if age > 0 { NothingMarked(age - 1); }
  }

  // ----- the window -----

  /** How far below the mark a number may be: at most the width of the bitmap. */
  type Width = n: nat | n <= 64

  /** The high mark and bitmap, as the sources keep them. */
  datatype Window = Window(high: u64, bits: u64)

  /** accept_work_sequence with width 64, udp_replay_accept with the UDP width. */
  function Accept(w: Window, width: nat, s: u64): (bool, Window)
    requires width <= 64
  {
    if s == 0 then (false, w)
    else if s > w.high then
      var advance := s - w.high;
      (true, Window(s, if advance >= 64 then 1 else SetWord(Shl(w.bits, advance), 0)))
    else
      var age := w.high - s;
      if age >= width || Has(w.bits, age) then (false, w)
      else (true, w.(bits := SetWord(w.bits, age)))
  }

  function SetWord(bits: u64, age: nat): u64
    requires age < 64
  {
    Pow2Of63(); SetFits(bits, age, 64);
    Set(bits, age)
  }

  // ----- refinement of an unbounded set -----

  /** The window describes the set of accepted numbers: zero is never in it, nothing
      above the mark is, and each bit says whether the number that far below the mark is. */
  ghost predicate Describes(w: Window, accepted: set<u64>)
  {
    && 0 !in accepted
    && (forall s :: s in accepted ==> s <= w.high)
    && (w.high == 0 || w.high in accepted)
    && (forall age {:trigger Has(w.bits, age)} :: 0 <= age < 64 ==>
          (Has(w.bits, age) <==> w.high - age in accepted))
  }

  /** The rule the window implements: nonzero, never accepted before, and above or fewer
      than `width` below the greatest number accepted. */
  ghost predicate Acceptable(accepted: set<u64>, width: nat, s: u64)
  {
    && s != 0 && s !in accepted
    && ((forall a :: a in accepted ==> a < s) ||
        (exists g: u64 :: Greatest(g, accepted) && s <= g && g - s < width))
  }

  ghost predicate Greatest(g: u64, accepted: set<u64>)
  {
    g in accepted && forall a :: a in accepted ==> a <= g
  }

  ghost function Remember(accepted: set<u64>, width: nat, s: u64): set<u64>
  {
    if Acceptable(accepted, width, s) then accepted + {s} else accepted
  }

  lemma AdvanceDescribes(w: Window, accepted: set<u64>, width: nat, s: u64)
    requires width <= 64 && Describes(w, accepted) && s > w.high
    ensures Describes(Accept(w, width, s).1, accepted + {s})
  {
    var v := Accept(w, width, s).1;
    var k := s - w.high;
    forall age | 0 <= age < 64
      ensures Has(v.bits, age) <==> v.high - age in accepted + {s}
    {
      if k >= 64 {
        if age > 0 { NothingMarked(age - 1); }
      } else {
        HasSet(Shl(w.bits, k), 0, age);
        HasShl(w.bits, k, age);
        if age >= k { assert w.high - (age - k) == s - age; }
      }
    }
  }

  lemma InsideDescribes(w: Window, accepted: set<u64>, s: u64)
    requires Describes(w, accepted) && 0 < s <= w.high && w.high - s < 64
    ensures Describes(w.(bits := SetWord(w.bits, w.high - s)), accepted + {s})
  {
    var v := w.(bits := SetWord(w.bits, w.high - s));
    forall age | 0 <= age < 64
      ensures Has(v.bits, age) <==> v.high - age in accepted + {s}
    {
      HasSet(w.bits, w.high - s, age);
    }
  }

  /** One call: the verdict is the rule's, and the window goes on describing the set. */
  lemma AcceptRefines(w: Window, accepted: set<u64>, width: nat, s: u64)
    requires width <= 64 && Describes(w, accepted)
    ensures Accept(w, width, s).0 <==> Acceptable(accepted, width, s)
    ensures Describes(Accept(w, width, s).1, Remember(accepted, width, s))
  {
    if s > w.high {
      AdvanceDescribes(w, accepted, width, s);
    } else if s != 0 {
      assert Greatest(w.high, accepted);
      var age := w.high - s;
      if age < width {
        assert Has(w.bits, age) <==> s in accepted;
        if s !in accepted { InsideDescribes(w, accepted, s); }
      }
    }
  }

  // ----- any sequence of calls -----

  function After(width: nat, calls: seq<u64>): Window
    requires width <= 64
    decreases |calls|
  {
    if calls == [] then Window(0, 0)
    else Accept(After(width, calls[..|calls| - 1]), width, calls[|calls| - 1]).1
  }

  ghost function Remembered(width: nat, calls: seq<u64>): set<u64>
    decreases |calls|
  {
    if calls == [] then {}
    else Remember(Remembered(width, calls[..|calls| - 1]), width, calls[|calls| - 1])
  }

  /** After any sequence of calls, with width 64 for work connections and any width up to
      64 for UDP, the 64-bit window gives the verdict of the unbounded set. */
  lemma {:induction false} WindowRefinesSet(width: nat, calls: seq<u64>, s: u64)
    requires width <= 64
    ensures Accept(After(width, calls), width, s).0 <==> Acceptable(Remembered(width, calls), width, s)
    ensures Describes(After(width, calls), Remembered(width, calls))
    decreases |calls|
  {
    if calls != [] {
      var before, last := calls[..|calls| - 1], calls[|calls| - 1];
      WindowRefinesSet(width, before, last);
      AcceptRefines(After(width, before), Remembered(width, before), width, last);
    } else {
      forall age | 0 <= age < 64 ensures !Has(0, age) { NothingMarked(age); }
    }
    AcceptRefines(After(width, calls), Remembered(width, calls), width, s);
  }

  /** No number is accepted twice: once accepted, every later call refuses it. */
  lemma NoReplay(width: nat, calls: seq<u64>, i: nat, s: u64)
    requires width <= 64 && i < |calls| && calls[i] == s
    requires Accept(After(width, calls[..i]), width, s).0
    ensures !Accept(After(width, calls), width, s).0
  {
    WindowRefinesSet(width, calls[..i], s);
    assert calls[..i + 1][..i] == calls[..i];
    Kept(width, calls, i + 1, s);
    WindowRefinesSet(width, calls, s);
  }

  lemma {:induction false} Kept(width: nat, calls: seq<u64>, i: nat, s: u64)
    requires i <= |calls| && s in Remembered(width, calls[..i])
    ensures s in Remembered(width, calls)
    decreases |calls|
  {
    if i < |calls| {
      assert calls[..|calls| - 1][..i] == calls[..i];
      Kept(width, calls[..|calls| - 1], i, s);
    } else {
      assert calls[..i] == calls;
    }
  }

  /** The window as ct_control and the UDP session records hold it, updated in place. */
  class Tracker {
    var high: u64
    var bits: u64
    const width: nat

    constructor (w: nat)
      requires w <= 64
      ensures Window(high, bits) == Window(0, 0) && width == w
    {
      high, bits, width := 0, 0, w;
    }

    method Check(s: u64) returns (ok: bool)
      requires width <= 64
      modifies `high, `bits
      ensures (ok, Window(high, bits)) == Accept(old(Window(high, bits)), width, s)
    {
      if s == 0 { return false; }
      if s > high {
        var advance := s - high;
        bits := if advance >= 64 then 1 else SetWord(Shl(bits, advance), 0);
        high := s;
        return true;
      }
      var age := high - s;
      if age >= width { return false; }
      if Has(bits, age) { return false; }
      bits := SetWord(bits, age);
      return true;
    }
  }
}

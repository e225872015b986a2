/** The process-wide counters (src/util/metrics.c): saturating addition, clamping
    subtraction and the one tracked peak. */
module Metrics {
  import opened Bytes

  // The ids this project reasons about, numbered as in src/util/metrics.h:5-44.
  const ACTIVE_STREAMS: nat := 2
  const PENDING_STREAMS: nat := 3
  const STREAMS_OPENED: nat := 4
  const STREAMS_CLOSED: nat := 5
  const STREAMS_FAILED: nat := 6
  const WORK_IDLE: nat := 7
  const WORK_ACTIVE: nat := 8
  const BUFFER_CURRENT: nat := 13
  const BUFFER_PEAK: nat := 14
  const UDP_ACTIVE: nat := 18
  const COUNT: nat := 37

  function Zeros(n: nat): (s: seq<u64>)
    ensures |s| == n && forall i :: 0 <= i < n ==> s[i] == 0
  {
    if n == 0 then [] else Zeros(n - 1) + [0]
  }

  type Counters = c: seq<u64> | |c| == COUNT witness Zeros(COUNT)

  function UpdatePeak(c: Counters): Counters
  {
    if c[BUFFER_CURRENT] > c[BUFFER_PEAK] then c[BUFFER_PEAK := c[BUFFER_CURRENT]] else c
  }

  function Add(c: Counters, id: nat, v: u64): (r: Counters)
    ensures forall i :: 0 <= i < COUNT && i != id && i != BUFFER_PEAK ==> r[i] == c[i]
    ensures id < COUNT && id != BUFFER_PEAK ==>
              r[id] == if c[id] + v > U64_MAX then U64_MAX else c[id] + v
    ensures id != BUFFER_PEAK ==> r[BUFFER_PEAK] >= c[BUFFER_PEAK]
    ensures id == BUFFER_CURRENT ==> r[BUFFER_PEAK] >= r[BUFFER_CURRENT]
    ensures id != BUFFER_PEAK && id != BUFFER_CURRENT ==> r[BUFFER_PEAK] == c[BUFFER_PEAK]
  {
    if id >= COUNT then c
    else
      var sum := (c[id] + v) % U64_LIMIT;
      var d: Counters := c[id := if sum < c[id] then U64_MAX else sum];
      if id == BUFFER_CURRENT then UpdatePeak(d) else d
  }

  function Sub(c: Counters, id: nat, v: u64): (r: Counters)
    ensures forall i :: 0 <= i < COUNT && i != id ==> r[i] == c[i]
    ensures id < COUNT ==> r[id] == if c[id] < v then 0 else c[id] - v
  {
    if id >= COUNT then c else c[id := if c[id] > v then c[id] - v else 0]
  }

  function Inc(c: Counters, id: nat): Counters { Add(c, id, 1) }
  function Dec(c: Counters, id: nat): Counters { Sub(c, id, 1) }

  /** The counter array as the program holds it, updated in place. */
  class Registry {
    const g: array<u64>

    ghost predicate Valid() { g.Length == COUNT }

    ghost function Now(): Counters
      requires Valid()
      reads g
    {
      g[..]
    }

    constructor ()
      ensures Valid() && fresh(g) && Now() == Zeros(COUNT)
    {
      g := new u64[COUNT](_ => 0);
    }

    method Plus(id: nat, v: u64)
      requires Valid()
      modifies g
      ensures Now() == Add(old(Now()), id, v)
    {
      if id >= COUNT { return; }
      var was := g[id];
      g[id] := (g[id] + v) % U64_LIMIT;
      if g[id] < was { g[id] := U64_MAX; }
      if id == BUFFER_CURRENT && g[BUFFER_CURRENT] > g[BUFFER_PEAK] {
        g[BUFFER_PEAK] := g[BUFFER_CURRENT];
      }
    }

    method Minus(id: nat, v: u64)
      requires Valid()
      modifies g
      ensures Now() == Sub(old(Now()), id, v)
    {
      if id >= COUNT { return; }
      g[id] := if g[id] > v then g[id] - v else 0;
    }
  }
}

/** Two encrypted relays, one in the client and one in the server, joined by a work
    connection: every interleaving of their steps. */
module RelayPair {
  import opened Bytes
  import opened Seqs
  import opened Records
  import opened RelaySpec
  import opened RelaySafety

  datatype Pair = Pair(client: State, server: State)
  datatype Event = Event(atClient: bool, fd: Fd, ev: Ready, io: Io)

  function Me(p: Pair, e: Event): State { if e.atClient then p.client else p.server }
  function Other(p: Pair, e: Event): State { if e.atClient then p.server else p.client }

  /** One call of ct_relay_process at one end. An answer that the operating system
      cannot give is not a step. */
  ghost function Stepped(p: Pair, e: Event): Pair
  {
    var r := Me(p, e);
    if !(Sized(r) && Plausible(r, e.fd, e.io)) then p
    else
      var q := After(r, e.fd, e.ev, e.io, Other(p, e).tx.sealed);
      if e.atClient then p.(client := q) else p.(server := q)
  }

  ghost function Run(p: Pair, events: seq<Event>): Pair
    decreases |events|
  {
    if events == [] then p
    else Stepped(Run(p, events[..|events| - 1]), events[|events| - 1])
  }

  /** Both ends as ct_relay_init leaves them: only the client may owe a PROXY header. */
  ghost predicate Start(p: Pair)
  {
    && CapOk(p.client.cap) && CapOk(p.server.cap)
    && |p.client.rx.header| <= p.client.cap
    && p.client == Init(p.client.cap, p.client.rx.header)
    && p.server == Init(p.server.cap, [])
  }

  ghost predicate PairHolds(p: Pair)
  {
    && Holds(p.client, p.server.tx.sealed)
    && Holds(p.server, p.client.tx.sealed)
  }

  lemma HoldsAsLogGrows(r: State, log: seq<Sealed>, more: seq<Sealed>)
    requires Holds(r, log) && log <= more
    ensures Holds(r, more)
  {
    assert log[..r.rx.seqno] == more[..r.rx.seqno];
  }

  lemma StepHolds(p: Pair, e: Event)
    requires PairHolds(p)
    ensures PairHolds(Stepped(p, e))
  {
    var r, o := Me(p, e), Other(p, e);
    if Plausible(r, e.fd, e.io) {
      AfterHolds(r, e.fd, e.ev, e.io, o.tx.sealed, Chunk(o.cap));
      AfterGrows(r, e.fd, e.ev, e.io, o.tx.sealed);
      HoldsAsLogGrows(o, r.tx.sealed, After(r, e.fd, e.ev, e.io, o.tx.sealed).tx.sealed);
    }
  }

  lemma {:induction false} RunHolds(p: Pair, events: seq<Event>)
    requires Start(p)
    ensures PairHolds(Run(p, events))
    decreases |events|
  {
    if events == [] {
      InitHolds(p.client.cap, p.client.rx.header, p.server.tx.sealed);
      InitHolds(p.server.cap, [], p.client.tx.sealed);
    } else {
      RunHolds(p, events[..|events| - 1]);
      StepHolds(Run(p, events[..|events| - 1]), events[|events| - 1]);
    }
  }

  /** What one end has delivered is a prefix of its header and what the other took in. */
  ghost predicate DeliveredPrefix(x: Rx, t: Tx)
  {
    x.sent <= x.header + t.taken
  }

  lemma PlainPrefix(log: seq<Sealed>, k: nat)
    requires k <= |log|
    ensures Plain(log[..k]) <= Plain(log)
  {
    WireCut(log, k);
    Leads(Plain(log[..k]), Plain(log[k..]));
  }

  lemma PrefixTrans(h: seq<byte>, a: seq<byte>, b: seq<byte>, c: seq<byte>, s: seq<byte>)
    requires s <= h + a && a <= b <= c
    ensures s <= h + c
  {
    assert h + a <= h + c;
  }

  lemma HeldIsPrefix(r: State, o: State)
    requires Holds(r, o.tx.sealed) && Sealing(o.tx, o.cap)
    ensures DeliveredPrefix(r.rx, o.tx)
  {
    var log := o.tx.sealed;
    PlainPrefix(log, r.rx.seqno);
    PrefixTrans(r.rx.header, Plain(log[..r.rx.seqno]), Plain(log), o.tx.taken, r.rx.sent);
  }

  /** Main theorem, adversarial channel: after any run, with any fragmentation, any
      failures and arbitrary bytes presented on the work connection, the bytes sent to
      one side's direct socket are a prefix of its PROXY header followed by the bytes
      the other side read from its direct socket. */
  lemma StreamsArePrefixes(p: Pair, events: seq<Event>)
    requires Start(p)
    ensures var q := Run(p, events);
      DeliveredPrefix(q.client.rx, q.server.tx) && DeliveredPrefix(q.server.rx, q.client.tx)
  {
    RunHolds(p, events);
    var q := Run(p, events);
    HeldIsPrefix(q.client, q.server);
    HeldIsPrefix(q.server, q.client);
  }
}

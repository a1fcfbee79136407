/** The in-memory backend: one unbounded channel, from which `nack` sends a message round again. */
module InMemory {
  import opened Bytes
  import opened Retry

  datatype Settled = Done | CannotAckOrNackTwice

  /** The channel, oldest message first. A consumer holds a sender, so it never closes. */
  class Channel {
    var items: seq<Bytes>

    constructor ()
      ensures items == []
    {
      items := [];
    }

    method Send(payload: Bytes)
      modifies this
      ensures items == old(items) + [payload]
    {
      items := items + [payload];
    }
  }

  class Acker {
    var payload: Bytes
    var settled: bool

    constructor (payload: Bytes)
      ensures this.payload == payload && !settled
    {
      this.payload, settled := payload, false;
    }

    method Ack() returns (r: Settled)
      modifies this`settled
      ensures settled && (r == Done <==> !old(settled))
    {
      if settled { return CannotAckOrNackTwice; }
      settled := true;
      r := Done;
    }

    method Nack(channel: Channel) returns (r: Settled)
      modifies this`settled, channel
      ensures settled && (r == Done <==> !old(settled))
      ensures channel.items == if r == Done then old(channel.items) + [payload] else old(channel.items)
    {
      if settled { return CannotAckOrNackTwice; }
      settled := true;
      channel.Send(payload);
      r := Done;
    }
  }

  /** What the first `n` attempts to take a message have seen arrive. */
  function Arrived(arrivals: nat -> seq<Bytes>, n: nat): seq<Bytes> {
    if n == 0 then [] else Arrived(arrivals, n - 1) + arrivals(n - 1)
  }

  function PayloadsOf(ackers: seq<Acker>): (ps: seq<Bytes>)
    reads ackers
    ensures |ps| == |ackers| && forall i | 0 <= i < |ackers| :: ps[i] == ackers[i].payload
  {
    if ackers == [] then [] else PayloadsOf(ackers[..|ackers| - 1]) + [ackers[|ackers| - 1].payload]
  }

  /** Different ackers, none settled. */
  ghost predicate Open(ackers: seq<Acker>)
    reads ackers
  {
    && (forall i, j | 0 <= i < j < |ackers| :: ackers[i] != ackers[j])
    && (forall i | 0 <= i < |ackers| :: !ackers[i].settled)
  }

  /** The batch is full, or the deadline has passed, which is looked at after each message but the first. */
  predicate Stops(max: nat, elapsed: nat -> bool, n: nat) {
    n == Max1(max) || (n > 1 && elapsed(n))
  }

  /**
   * `receive_all`. Before the `i`-th attempt to take a message `arrivals(i)` is sent by others (for the first
   * attempt: while it waits); `elapsed(n)` tells whether the deadline has passed once `n` messages are taken.
   *
   * What is delivered and what stays in the channel are together everything there was, in order; at most
   * `max_messages` are delivered, or one; and it stops short only because the channel is empty or the deadline has
   * passed.
   */
  method ReceiveAll(channel: Channel, max: nat, arrivals: nat -> seq<Bytes>, elapsed: nat -> bool)
      returns (out: seq<Acker>)
    modifies channel
    ensures fresh(out) && Open(out)
    ensures |out| <= Max1(max) && forall n | 1 <= n < |out| :: !Stops(max, elapsed, n)
    ensures PayloadsOf(out) + channel.items
         == old(channel.items) + Arrived(arrivals, if Stops(max, elapsed, |out|) then |out| else |out| + 1)
    ensures !Stops(max, elapsed, |out|) ==> channel.items == []
  {
    hide Open, PayloadsOf, Arrived;
    out := [];
    assert Open(out) && PayloadsOf(out) == [] by { NoAckers(); }
    channel.items := channel.items + arrivals(0);
    assert PayloadsOf(out) + channel.items == old(channel.items) + Arrived(arrivals, 1) by { FirstArrivals(arrivals); }
    if channel.items == [] { return; }
    out := Take(channel, out);
    if max > 1 {
      while true
        invariant 1 <= |out| < max && fresh(out) && Open(out)
        invariant forall n | 1 <= n <= |out| :: !Stops(max, elapsed, n)
        invariant PayloadsOf(out) + channel.items == old(channel.items) + Arrived(arrivals, |out|)
        decreases max - |out|
      {
        var n := |out|;
        NextArrivals(PayloadsOf(out), channel.items, old(channel.items), arrivals, n);
        channel.items := channel.items + arrivals(n);
        if channel.items == [] { break; }
        out := Take(channel, out);
        if |out| >= max || elapsed(|out|) { break; }
      }
    }
  }

  lemma NoAckers()
    ensures Open([]) && PayloadsOf([]) == []
  {
  }

  lemma FirstArrivals(arrivals: nat -> seq<Bytes>)
    ensures Arrived(arrivals, 1) == arrivals(0) && forall s: seq<Bytes> :: [] + s == s
  {
  }

  lemma NextArrivals(out: seq<Bytes>, items: seq<Bytes>, before: seq<Bytes>, arrivals: nat -> seq<Bytes>, n: nat)
    requires out + items == before + Arrived(arrivals, n)
    ensures out + (items + arrivals(n)) == before + Arrived(arrivals, n + 1)
  {
    assert out + (items + arrivals(n)) == (out + items) + arrivals(n);
  }

  /** `wrap_payload` of the next message. */
  method Take(channel: Channel, taken: seq<Acker>) returns (out: seq<Acker>)
    requires channel.items != [] && Open(taken)
    modifies channel
    ensures Open(out) && |out| == |taken| + 1 && fresh(set a | a in out && a !in taken)
    ensures PayloadsOf(out) + channel.items == PayloadsOf(taken) + old(channel.items)
  {
    var next := new Acker(channel.items[0]);
    out, channel.items := taken + [next], channel.items[1..];
    assert out[..|taken|] == taken;
  }

  // ----- whole runs -----

  /** One acker: not settled, and the payload it was given. */
  datatype Held = Held(payload: Bytes, settled: bool)

  /** `pushed` and `popped` are all that went through the channel, in order; `oks` counts successes per acker. */
  datatype State = State(channel: seq<Bytes>, sleeping: seq<Bytes>, held: seq<Held>,
                         sent: multiset<Bytes>, acked: multiset<Bytes>,
                         pushed: seq<Bytes>, popped: seq<Bytes>, oks: seq<nat>)

  datatype Event =
    | Send(payload: Bytes)
    | SendScheduled(payload: Bytes)
      // the delay of the `i`-th sleeping message is over
    | Wake(i: nat)
    | Receive
    | Ack(i: nat)
    | Nack(i: nat)

  const INIT: State := State([], [], [], multiset{}, multiset{}, [], [], [])

  function Push(s: State, payload: Bytes): State {
    s.(channel := s.channel + [payload], pushed := s.pushed + [payload])
  }

  function Settle(s: State, i: nat): State
    requires i < |s.held| && i < |s.oks|
  {
    s.(held := s.held[i := s.held[i].(settled := true)], oks := s.oks[i := s.oks[i] + 1])
  }

  /** `receive_all` is some `Receive`s with whatever else happens in between. */
  function Step(s: State, e: Event): State {
    match e
    case Send(p) => Push(s, p).(sent := s.sent + multiset{p})
    case SendScheduled(p) => s.(sleeping := s.sleeping + [p], sent := s.sent + multiset{p})
    case Wake(i) =>
      if i < |s.sleeping| then Push(s, s.sleeping[i]).(sleeping := s.sleeping[..i] + s.sleeping[i + 1..]) else s
    case Receive =>
      if s.channel == [] then s
      else s.(channel := s.channel[1..], popped := s.popped + [s.channel[0]],
              held := s.held + [Held(s.channel[0], false)], oks := s.oks + [0])
    case Ack(i) =>
      if i < |s.held| && i < |s.oks| && !s.held[i].settled
      then Settle(s, i).(acked := s.acked + multiset{s.held[i].payload}) else s
    case Nack(i) =>
      if i < |s.held| && i < |s.oks| && !s.held[i].settled then Settle(Push(s, s.held[i].payload), i) else s
  }

  function Run(es: seq<Event>): State {
    if es == [] then INIT else Step(Run(es[..|es| - 1]), es[|es| - 1])
  }

  function Unsettled(held: seq<Held>): multiset<Bytes> {
    if held == [] then multiset{}
    else (if held[0].settled then multiset{} else multiset{held[0].payload}) + Unsettled(held[1..])
  }

  lemma {:induction false} UnsettledConcat(a: seq<Held>, b: seq<Held>)
    ensures Unsettled(a + b) == Unsettled(a) + Unsettled(b)
  {
    if a == [] {
      assert a + b == b;
    } else {
      assert (a + b)[1..] == a[1..] + b;
      UnsettledConcat(a[1..], b);
    }
  }

  lemma UnsettledOne(h: Held)
    ensures Unsettled([h]) == if h.settled then multiset{} else multiset{h.payload}
  {
    assert [h][1..] == [];
  }

  lemma SettledOnce(held: seq<Held>, i: nat)
    requires i < |held| && !held[i].settled
    ensures Unsettled(held) == Unsettled(held[i := held[i].(settled := true)]) + multiset{held[i].payload}
  {
    var h := held[i].(settled := true);
    assert held == held[..i] + ([held[i]] + held[i + 1..]) && held[i := h] == held[..i] + ([h] + held[i + 1..]);
    UnsettledConcat(held[..i], [held[i]] + held[i + 1..]);
    UnsettledConcat(held[..i], [h] + held[i + 1..]);
    UnsettledConcat([held[i]], held[i + 1..]);
    UnsettledConcat([h], held[i + 1..]);
    UnsettledOne(held[i]);
    UnsettledOne(h);
  }

  /** Every message sent is in the channel, still delayed, delivered and not settled, or acked; none is there twice. */
  ghost predicate Conserved(s: State, x: Bytes) {
    multiset(s.channel)[x] + multiset(s.sleeping)[x] + Unsettled(s.held)[x] + s.acked[x] == s.sent[x]
  }

  /** Messages leave the channel in the order they entered it. */
  ghost predicate Fifo(s: State) {
    s.popped + s.channel == s.pushed
  }

  /** An acker has succeeded once if it is settled, and never if it is not. */
  ghost predicate OnceEach(s: State) {
    |s.oks| == |s.held| && forall i | 0 <= i < |s.held| :: s.oks[i] == if s.held[i].settled then 1 else 0
  }

  lemma FifoStep(s: State, e: Event)
    requires Fifo(s) && OnceEach(s)
    ensures Fifo(Step(s, e)) && OnceEach(Step(s, e))
  {
    if e.Receive? && s.channel != [] {
      assert s.popped + [s.channel[0]] + s.channel[1..] == s.popped + s.channel;
    }
  }

  lemma ReceiveConserves(s: State, x: Bytes)
    requires Conserved(s, x) && s.channel != []
    ensures Conserved(Step(s, Receive), x)
  {
    hide Unsettled;
    var p := s.channel[0];
    assert s.channel == [p] + s.channel[1..];
    UnsettledConcat(s.held, [Held(p, false)]);
    UnsettledOne(Held(p, false));
  }

  lemma WakeConserves(s: State, i: nat, x: Bytes)
    requires Conserved(s, x) && i < |s.sleeping|
    ensures Conserved(Step(s, Wake(i)), x)
  {
    hide Unsettled;
    assert s.sleeping == s.sleeping[..i] + [s.sleeping[i]] + s.sleeping[i + 1..];
  }

  lemma SettleConserves(s: State, i: nat, x: Bytes)
    requires Conserved(s, x) && i < |s.held| && i < |s.oks| && !s.held[i].settled
    ensures Conserved(Step(s, Ack(i)), x) && Conserved(Step(s, Nack(i)), x)
  {
    hide Unsettled;
    SettledOnce(s.held, i);
  }

  lemma ConservedStep(s: State, e: Event, x: Bytes)
    requires Conserved(s, x)
    ensures Conserved(Step(s, e), x)
  {
    hide Unsettled;
    match e
    case Wake(i) => if i < |s.sleeping| { WakeConserves(s, i, x); }
    case Receive => if s.channel != [] { ReceiveConserves(s, x); }
    case Ack(i) => if i < |s.held| && i < |s.oks| && !s.held[i].settled { SettleConserves(s, i, x); }
    case Nack(i) => if i < |s.held| && i < |s.oks| && !s.held[i].settled { SettleConserves(s, i, x); }
    case _ =>
  }

  /** Over every run: nothing is lost or doubled, order is kept, and each acker succeeds at most once. */
  lemma {:induction false} RunConserves(es: seq<Event>, x: Bytes)
    ensures Conserved(Run(es), x) && Fifo(Run(es)) && OnceEach(Run(es))
  {
    hide Conserved, Fifo, OnceEach, Step;
    if es == [] {
      assert Conserved(INIT, x) && Fifo(INIT) && OnceEach(INIT) by { NothingYet(x); }
    } else {
      var front := es[..|es| - 1];
      RunConserves(front, x);
      ConservedStep(Run(front), es[|es| - 1], x);
      FifoStep(Run(front), es[|es| - 1]);
    }
  }

  lemma NothingYet(x: Bytes)
    ensures Conserved(INIT, x) && Fifo(INIT) && OnceEach(INIT)
  {
  }
}

/**
 * The queue both Redis layouts implement, without their layout: bags of waiting and leased messages with receive
 * counts, delayed messages and dead letters.
 */
module BagQueue {
  import opened Bytes
  import opened Retry

  datatype Item = Item(payload: Bytes, count: nat)

  datatype Bag = Bag(waiting: multiset<Item>, leased: multiset<Item>, delayed: multiset<Bytes>, dead: multiset<Bytes>)

  datatype Act =
    | Send(payload: Bytes)
    | Schedule(payload: Bytes)
    | Lease(item: Item)
    | Ack(item: Item)
    | Requeue(item: Item)
    | DeadLetter(item: Item)
    | Release(payload: Bytes)
    | Redrive(payload: Bytes)
      // a `nack` of a delivery that has already been taken over dead-letters its payload once more
    | Duplicate(payload: Bytes)

  const EMPTY: Bag := Bag(multiset{}, multiset{}, multiset{}, multiset{})

  predicate Enabled(limit: Limit, b: Bag, a: Act) {
    match a
    case Send(_) => true
    case Schedule(_) => true
    case Lease(i) => i in b.waiting
    case Ack(i) => i in b.leased
    case Requeue(i) => i in b.leased && (limit.None? || i.count + 1 < limit.value)
    case DeadLetter(i) => i in b.leased && limit.Some? && i.count + 1 >= limit.value
    case Release(p) => p in b.delayed
    case Redrive(p) => p in b.dead && limit.Some?
    case Duplicate(_) => limit.Some?
  }

  function Do(b: Bag, a: Act): Bag {
    match a
    case Send(p) => b.(waiting := b.waiting + multiset{Item(p, 0)})
    case Schedule(p) => b.(delayed := b.delayed + multiset{p})
    case Lease(i) => b.(waiting := b.waiting - multiset{i}, leased := b.leased + multiset{i})
    case Ack(i) => b.(leased := b.leased - multiset{i})
    case Requeue(i) =>
      b.(leased := b.leased - multiset{i}, waiting := b.waiting + multiset{Item(i.payload, i.count + 1)})
    case DeadLetter(i) => b.(leased := b.leased - multiset{i}, dead := b.dead + multiset{i.payload})
    case Release(p) => b.(delayed := b.delayed - multiset{p}, waiting := b.waiting + multiset{Item(p, 0)})
    case Redrive(p) => b.(dead := b.dead - multiset{p}, waiting := b.waiting + multiset{Item(p, 0)})
    case Duplicate(p) => b.(dead := b.dead + multiset{p})
  }

  /** `acts` can be done one after the other from `b`, and lead to `b'`. */
  predicate Path(limit: Limit, b: Bag, acts: seq<Act>, b': Bag)
    decreases |acts|
  {
    if acts == [] then b == b'
    else Enabled(limit, b, acts[0]) && Path(limit, Do(b, acts[0]), acts[1..], b')
  }

  lemma {:induction false} PathConcat(limit: Limit, a: Bag, xs: seq<Act>, b: Bag, ys: seq<Act>, c: Bag)
    requires Path(limit, a, xs, b) && Path(limit, b, ys, c)
    ensures Path(limit, a, xs + ys, c)
    decreases |xs|
  {
    if xs == [] {
      assert xs + ys == ys;
    } else {
      assert (xs + ys)[1..] == xs[1..] + ys;
      PathConcat(limit, Do(a, xs[0]), xs[1..], b, ys, c);
    }
  }

  lemma PathOne(limit: Limit, b: Bag, a: Act)
    requires Enabled(limit, b, a)
    ensures Path(limit, b, [a], Do(b, a))
  {
    assert [a][1..] == [];
  }

  lemma PathCons(limit: Limit, b: Bag, a: Act, acts: seq<Act>, b': Bag)
    requires Enabled(limit, b, a) && Path(limit, Do(b, a), acts, b')
    ensures Path(limit, b, [a] + acts, b')
  {
    assert ([a] + acts)[1..] == acts;
  }

  // ----- sums over bags -----

  ghost function Sum<T(!new)>(m: multiset<T>, f: T -> nat): nat
    decreases |m|
  {
    if m == multiset{} then 0 else var x :| x in m; f(x) + Sum(m - multiset{x}, f)
  }

  lemma {:induction false} SumAdd<T(!new)>(m: multiset<T>, x: T, f: T -> nat)
    ensures Sum(m + multiset{x}, f) == Sum(m, f) + f(x)
    decreases |m|
  {
    var n := m + multiset{x};
    assert x in n;
    var y :| y in n && Sum(n, f) == f(y) + Sum(n - multiset{y}, f);
    hide Sum;
    if y == x {
      assert n - multiset{y} == m;
    } else {
      var rest := m - multiset{y};
      TakeOne(m, x, y);
      SumAdd(rest, x, f);
      SumAdd(rest, y, f);
    }
  }

  lemma TakeOne<T>(m: multiset<T>, x: T, y: T)
    requires y in m
    ensures m + multiset{x} - multiset{y} == m - multiset{y} + multiset{x}
    ensures m - multiset{y} + multiset{y} == m
  {
  }

  lemma SumRemove<T(!new)>(m: multiset<T>, x: T, f: T -> nat)
    requires x in m
    ensures Sum(m, f) == Sum(m - multiset{x}, f) + f(x)
  {
    SumAdd(m - multiset{x}, x, f);
    assert m - multiset{x} + multiset{x} == m;
  }

  // ----- no livelock -----

  /** Counts of messages in circulation stay below the retry limit. */
  ghost predicate CountsBelow(limit: nat, b: Bag) {
    (forall i | i in b.waiting :: i.count < Max1(limit)) && (forall i | i in b.leased :: i.count < Max1(limit))
  }

  ghost predicate Bounded(limit: Limit, b: Bag) {
    limit.Some? ==> CountsBelow(limit.value, b)
  }

  /** The moves a message makes by itself or by being taken and settled; sends and redrives are excluded. */
  predicate IsMove(a: Act) { a.Lease? || a.Ack? || a.Requeue? || a.DeadLetter? || a.Release? }

  function WaitWeight(m: nat): Item -> nat {
    (i: Item) => if i.count < m then 2 * (m - i.count) else 0
  }

  function LeaseWeight(m: nat): Item -> nat {
    (i: Item) => if i.count < m then 2 * (m - i.count) - 1 else 0
  }

  function DelayWeight(m: nat): Bytes -> nat {
    (p: Bytes) => 2 * m + 1
  }

  ghost function Measure(limit: nat, b: Bag): nat {
    var m := Max1(limit);
    Sum(b.waiting, WaitWeight(m)) + Sum(b.leased, LeaseWeight(m)) + Sum(b.delayed, DelayWeight(m))
  }

  lemma DoKeepsBounds(limit: Limit, b: Bag, a: Act)
    requires Bounded(limit, b) && Enabled(limit, b, a)
    ensures Bounded(limit, Do(b, a))
  {
  }

  lemma {:induction false} PathKeepsBounds(limit: Limit, b: Bag, acts: seq<Act>, b': Bag)
    requires Bounded(limit, b) && Path(limit, b, acts, b')
    ensures Bounded(limit, b')
    decreases |acts|
  {
    if acts != [] {
      DoKeepsBounds(limit, b, acts[0]);
      PathKeepsBounds(limit, Do(b, acts[0]), acts[1..], b');
    }
  }

  /** What one item weighs while waiting, leased and after a requeue. */
  lemma Weights(m: nat, i: Item)
    requires i.count < m
    ensures WaitWeight(m)(i) == 2 * (m - i.count) && LeaseWeight(m)(i) == 2 * (m - i.count) - 1
    ensures WaitWeight(m)(Item(i.payload, i.count + 1)) == 2 * (m - i.count) - 2
    ensures DelayWeight(m)(i.payload) == 2 * m + 1
  {
  }

  lemma MoveDecreases(limit: nat, b: Bag, a: Act)
    requires CountsBelow(limit, b) && Enabled(Some(limit), b, a) && IsMove(a)
    ensures Measure(limit, Do(b, a)) < Measure(limit, b)
  {
    hide Sum, WaitWeight, LeaseWeight, DelayWeight;
    var m := Max1(limit);
    if a.Release? {
      Weights(m, Item(a.payload, 0));
      SumRemove(b.delayed, a.payload, DelayWeight(m));
      SumAdd(b.waiting, Item(a.payload, 0), WaitWeight(m));
    } else if a.Lease? {
      Weights(m, a.item);
      SumRemove(b.waiting, a.item, WaitWeight(m));
      SumAdd(b.leased, a.item, LeaseWeight(m));
    } else {
      Weights(m, a.item);
      SumRemove(b.leased, a.item, LeaseWeight(m));
      if a.Requeue? { SumAdd(b.waiting, Item(a.item.payload, a.item.count + 1), WaitWeight(m)); }
    }
  }

  /** How many of `acts` are moves. */
  function Moves(acts: seq<Act>): nat {
    if acts == [] then 0 else (if IsMove(acts[0]) then 1 else 0) + Moves(acts[1..])
  }

  /** Second dead-letterings change nothing for the messages in circulation, so the measure pays for all moves. */
  lemma {:induction false} MovesAreBounded(limit: nat, b: Bag, acts: seq<Act>, b': Bag)
    requires CountsBelow(limit, b) && Path(Some(limit), b, acts, b')
    requires forall i | 0 <= i < |acts| :: IsMove(acts[i]) || acts[i].Duplicate?
    ensures Moves(acts) + Measure(limit, b') <= Measure(limit, b) && CountsBelow(limit, b')
    decreases |acts|
  {
    if acts != [] {
      var b1 := Do(b, acts[0]);
      if acts[0].Duplicate? {
        DuplicateWeighsNothing(limit, b, acts[0].payload);
      } else {
        MoveDecreases(limit, b, acts[0]);
      }
      DoKeepsBounds(Some(limit), b, acts[0]);
      hide Measure, CountsBelow, Do;
      MovesAreBounded(limit, b1, acts[1..], b');
    }
  }

  lemma DuplicateWeighsNothing(limit: nat, b: Bag, p: Bytes)
    ensures Measure(limit, Do(b, Duplicate(p))) == Measure(limit, b)
  {
  }

  lemma {:induction false} AllMoves(acts: seq<Act>)
    requires forall i | 0 <= i < |acts| :: IsMove(acts[i])
    ensures Moves(acts) == |acts|
  {
    if acts != [] { AllMoves(acts[1..]); }
  }

  lemma {:induction false} MovesConcat(a: seq<Act>, b: seq<Act>)
    ensures Moves(a + b) == Moves(a) + Moves(b)
  {
    if a == [] {
      assert a + b == b;
    } else {
      assert (a + b)[1..] == a[1..] + b;
      MovesConcat(a[1..], b);
    }
  }

  /** With a retry limit, a run of moves without new sends or redrives is no longer than the measure of its start. */
  lemma {:induction false} NoLivelock(limit: nat, b: Bag, acts: seq<Act>, b': Bag)
    requires CountsBelow(limit, b) && Path(Some(limit), b, acts, b')
    requires forall i | 0 <= i < |acts| :: IsMove(acts[i])
    ensures |acts| + Measure(limit, b') <= Measure(limit, b) && CountsBelow(limit, b')
  {
    hide Measure, CountsBelow, Path;
    MovesAreBounded(limit, b, acts, b');
    AllMoves(acts);
  }

  // ----- conservation -----

  function IsOf(x: Bytes): Item -> nat {
    (i: Item) => if i.payload == x then 1 else 0
  }

  /** The messages of payload `x`, wherever they are. */
  ghost function Mass(b: Bag, x: Bytes): nat {
    Sum(b.waiting, IsOf(x)) + Sum(b.leased, IsOf(x)) + b.delayed[x] + b.dead[x]
  }

  function Gain(a: Act, x: Bytes): int {
    match a
    case Send(p) => if p == x then 1 else 0
    case Schedule(p) => if p == x then 1 else 0
    case Duplicate(p) => if p == x then 1 else 0
    case Ack(i) => if i.payload == x then -1 else 0
    case _ => 0
  }

  function Gains(acts: seq<Act>, x: Bytes): int {
    if acts == [] then 0 else Gain(acts[0], x) + Gains(acts[1..], x)
  }

  lemma DoGains(limit: Limit, b: Bag, a: Act, x: Bytes)
    requires Enabled(limit, b, a)
    ensures Mass(Do(b, a), x) == Mass(b, x) + Gain(a, x)
  {
    if a.Lease? || a.Ack? || a.Requeue? || a.DeadLetter? {
      ItemGains(limit, b, a, x);
    } else {
      PayloadGains(limit, b, a, x);
    }
  }

  lemma ItemGains(limit: Limit, b: Bag, a: Act, x: Bytes)
    requires Enabled(limit, b, a) && (a.Lease? || a.Ack? || a.Requeue? || a.DeadLetter?)
    ensures Mass(Do(b, a), x) == Mass(b, x) + Gain(a, x)
  {
    hide Sum;
    match a
    case Lease(i) => SumRemove(b.waiting, i, IsOf(x)); SumAdd(b.leased, i, IsOf(x));
    case Ack(i) => SumRemove(b.leased, i, IsOf(x));
    case Requeue(i) => SumRemove(b.leased, i, IsOf(x)); SumAdd(b.waiting, Item(i.payload, i.count + 1), IsOf(x));
    case DeadLetter(i) => SumRemove(b.leased, i, IsOf(x));
  }

  lemma PayloadGains(limit: Limit, b: Bag, a: Act, x: Bytes)
    requires Enabled(limit, b, a) && (a.Send? || a.Schedule? || a.Release? || a.Redrive? || a.Duplicate?)
    ensures Mass(Do(b, a), x) == Mass(b, x) + Gain(a, x)
  {
    hide Sum;
    if a.Send? || a.Release? || a.Redrive? { SumAdd(b.waiting, Item(a.payload, 0), IsOf(x)); }
  }

  lemma {:induction false} PathGains(limit: Limit, b: Bag, acts: seq<Act>, b': Bag, x: Bytes)
    requires Path(limit, b, acts, b')
    ensures Mass(b', x) == Mass(b, x) + Gains(acts, x)
    decreases |acts|
  {
    hide Mass;
    if acts != [] {
      DoGains(limit, b, acts[0], x);
      PathGains(limit, Do(b, acts[0]), acts[1..], b', x);
    }
  }

  // ----- everything ends in the dead-letter list -----

  /** Nothing is in circulation: every message is a dead letter. */
  ghost predicate Drained(b: Bag) {
    b.waiting == multiset{} && b.leased == multiset{} && b.delayed == multiset{}
  }

  /** Moves that need nobody to ack. */
  ghost predicate MovesWithoutAck(acts: seq<Act>) {
    forall i | 0 <= i < |acts| :: IsMove(acts[i]) && !acts[i].Ack?
  }

  /** There are no dead ends: while a message is in circulation it can move, acked or not. */
  lemma NextMove(limit: nat, b: Bag) returns (a: Act)
    requires !Drained(b)
    ensures IsMove(a) && !a.Ack? && Enabled(Some(limit), b, a)
  {
    if i :| i in b.waiting {
      a := Lease(i);
    } else if i :| i in b.leased {
      a := if i.count + 1 >= limit then DeadLetter(i) else Requeue(i);
    } else {
      var p :| p in b.delayed;
      a := Release(p);
    }
  }

  lemma {:induction false} NoAckNoGain(acts: seq<Act>, x: Bytes)
    requires MovesWithoutAck(acts)
    ensures Gains(acts, x) == 0
  {
    if acts != [] { NoAckNoGain(acts[1..], x); }
  }

  /** From any bag, moves without acks lead to one where everything is dead-lettered. */
  lemma {:induction false} DrainFrom(limit: nat, b: Bag) returns (acts: seq<Act>, end: Bag)
    requires CountsBelow(limit, b)
    ensures Path(Some(limit), b, acts, end) && MovesWithoutAck(acts) && Drained(end)
    decreases Measure(limit, b)
  {
    hide Measure;
    if Drained(b) {
      acts, end := [], b;
    } else {
      hide Path, Enabled, Do, Drained, CountsBelow;
      var a := NextMove(limit, b);
      MoveDecreases(limit, b, a);
      DoKeepsBounds(Some(limit), b, a);
      var rest: seq<Act>;
      rest, end := DrainFrom(limit, Do(b, a));
      PathCons(Some(limit), b, a, rest, end);
      acts := [a] + rest;
    }
  }

  lemma DrainedMass(b: Bag, x: Bytes)
    requires Drained(b)
    ensures Mass(b, x) == b.dead[x]
  {
  }

  /**
   * With a retry limit, unacked messages all reach the dead-letter list: whatever moves have been made, there are
   * moves without any further ack after which everything not acked is dead-lettered, and all of them together are no
   * more than the measure of the start.
   */
  lemma {:induction false} AllEndInTheDeadLetterList(limit: nat, b: Bag, acts: seq<Act>, b': Bag)
      returns (more: seq<Act>, end: Bag)
    requires CountsBelow(limit, b) && Path(Some(limit), b, acts, b')
    requires forall i | 0 <= i < |acts| :: IsMove(acts[i])
    ensures Path(Some(limit), b', more, end) && MovesWithoutAck(more) && |acts| + |more| <= Measure(limit, b)
    ensures Drained(end) && forall x :: end.dead[x] == Mass(b, x) + Gains(acts, x)
  {
    hide Measure, Mass, Path, CountsBelow, Drained;
    NoLivelock(limit, b, acts, b');
    more, end := DrainFrom(limit, b');
    NoLivelock(limit, b', more, end);
    forall x ensures end.dead[x] == Mass(b, x) + Gains(acts, x) {
      PathGains(Some(limit), b, acts, b', x);
      PathGains(Some(limit), b', more, end, x);
      NoAckNoGain(more, x);
      DrainedMass(end, x);
    }
  }
}

/** Batches of acts on the bag queue. */
module BagBatches {
  import opened Bytes
  import opened Retry
  import opened BagQueue

  function ZeroItems(bodies: seq<Bytes>): multiset<Item> {
    if bodies == [] then multiset{} else multiset{Item(bodies[0], 0)} + ZeroItems(bodies[1..])
  }

  function Each(make: Bytes -> Act, bodies: seq<Bytes>): seq<Act> {
    if bodies == [] then [] else [make(bodies[0])] + Each(make, bodies[1..])
  }

  const RELEASING: Bytes -> Act := p => Release(p)

  const REDRIVING: Bytes -> Act := p => Redrive(p)

  lemma OneMore<T>(a: multiset<T>, x: T, b: multiset<T>)
    ensures a + multiset{x} + b == a + (multiset{x} + b)
  {
  }

  lemma OneLess<T>(m: multiset<T>, xs: seq<T>)
    requires xs != [] && multiset(xs) <= m
    ensures xs[0] in m && multiset(xs[1..]) <= m - multiset{xs[0]}
    ensures m - multiset{xs[0]} - multiset(xs[1..]) == m - multiset(xs)
  {
    assert xs == [xs[0]] + xs[1..];
    assert xs[0] in multiset(xs);
  }

  lemma {:induction false} RedrivePath(limit: Limit, b: Bag, bodies: seq<Bytes>)
    requires limit.Some? && multiset(bodies) <= b.dead
    ensures Path(limit, b, Each(REDRIVING, bodies),
                 b.(dead := b.dead - multiset(bodies), waiting := b.waiting + ZeroItems(bodies)))
    decreases |bodies|
  {
    if bodies == [] {
      assert b.dead - multiset(bodies) == b.dead && b.waiting + ZeroItems(bodies) == b.waiting;
    } else {
      hide Path;
      OneLess(b.dead, bodies);
      OneMore(b.waiting, Item(bodies[0], 0), ZeroItems(bodies[1..]));
      RedrivePath(limit, Do(b, Redrive(bodies[0])), bodies[1..]);
      PathCons(limit, b, Redrive(bodies[0]), Each(REDRIVING, bodies[1..]),
               b.(dead := b.dead - multiset(bodies), waiting := b.waiting + ZeroItems(bodies)));
    }
  }

  lemma {:induction false} ReleasePath(limit: Limit, b: Bag, bodies: seq<Bytes>)
    requires multiset(bodies) <= b.delayed
    ensures Path(limit, b, Each(RELEASING, bodies),
                 b.(delayed := b.delayed - multiset(bodies), waiting := b.waiting + ZeroItems(bodies)))
    decreases |bodies|
  {
    if bodies == [] {
      assert b.delayed - multiset(bodies) == b.delayed && b.waiting + ZeroItems(bodies) == b.waiting;
    } else {
      hide Path;
      OneLess(b.delayed, bodies);
      OneMore(b.waiting, Item(bodies[0], 0), ZeroItems(bodies[1..]));
      ReleasePath(limit, Do(b, Release(bodies[0])), bodies[1..]);
      PathCons(limit, b, Release(bodies[0]), Each(RELEASING, bodies[1..]),
               b.(delayed := b.delayed - multiset(bodies), waiting := b.waiting + ZeroItems(bodies)));
    }
  }

  lemma {:induction false} ReleasesAreMoves(bodies: seq<Bytes>)
    ensures MovesWithoutAck(Each(RELEASING, bodies)) && |Each(RELEASING, bodies)| == |bodies|
  {
    if bodies != [] { ReleasesAreMoves(bodies[1..]); }
  }

  const DUPLICATING: Bytes -> Act := p => Duplicate(p)

  lemma {:induction false} DuplicatePath(limit: Limit, b: Bag, bodies: seq<Bytes>)
    requires limit.Some?
    ensures Path(limit, b, Each(DUPLICATING, bodies), b.(dead := b.dead + multiset(bodies)))
    decreases |bodies|
  {
    if bodies == [] {
      assert b.dead + multiset(bodies) == b.dead;
    } else {
      hide Path;
      assert bodies == [bodies[0]] + bodies[1..];
      assert b.dead + multiset{bodies[0]} + multiset(bodies[1..]) == b.dead + multiset(bodies);
      DuplicatePath(limit, Do(b, Duplicate(bodies[0])), bodies[1..]);
      PathCons(limit, b, Duplicate(bodies[0]), Each(DUPLICATING, bodies[1..]),
               b.(dead := b.dead + multiset(bodies)));
    }
  }

  function Leases(items: seq<Item>): seq<Act> {
    if items == [] then [] else [Lease(items[0])] + Leases(items[1..])
  }

  lemma {:induction false} LeasePath(limit: Limit, b: Bag, items: seq<Item>)
    requires multiset(items) <= b.waiting
    ensures Path(limit, b, Leases(items),
                 b.(waiting := b.waiting - multiset(items), leased := b.leased + multiset(items)))
    decreases |items|
  {
    if items == [] {
      assert b.waiting - multiset(items) == b.waiting && b.leased + multiset(items) == b.leased;
    } else {
      hide Path;
      OneLess(b.waiting, items);
      FirstAndRest(b.leased, items);
      LeasePath(limit, Do(b, Lease(items[0])), items[1..]);
      PathCons(limit, b, Lease(items[0]), Leases(items[1..]),
               b.(waiting := b.waiting - multiset(items), leased := b.leased + multiset(items)));
    }
  }

  lemma FirstAndRest<T>(m: multiset<T>, xs: seq<T>)
    requires xs != []
    ensures m + multiset{xs[0]} + multiset(xs[1..]) == m + multiset(xs)
  {
    assert xs == [xs[0]] + xs[1..];
  }

  /** What a timeout does to one leased item. */
  function TimeOut(limit: Limit, i: Item): Act {
    if AtLimit(limit, i.count + 1) then DeadLetter(i) else Requeue(i)
  }

  function TimeOuts(limit: Limit, items: seq<Item>): seq<Act> {
    if items == [] then [] else [TimeOut(limit, items[0])] + TimeOuts(limit, items[1..])
  }

  /** The items that timeouts put back. */
  function Again(limit: Limit, items: seq<Item>): multiset<Item> {
    if items == [] then multiset{}
    else (if AtLimit(limit, items[0].count + 1) then multiset{}
          else multiset{Item(items[0].payload, items[0].count + 1)})
         + Again(limit, items[1..])
  }

  /** The payloads that timeouts dead-letter. */
  function Dead(limit: Limit, items: seq<Item>): multiset<Bytes> {
    if items == [] then multiset{}
    else (if AtLimit(limit, items[0].count + 1) then multiset{items[0].payload} else multiset{})
         + Dead(limit, items[1..])
  }

  function AllTimedOut(limit: Limit, b: Bag, items: seq<Item>): Bag {
    b.(leased := b.leased - multiset(items), waiting := b.waiting + Again(limit, items),
       dead := b.dead + Dead(limit, items))
  }

  lemma {:induction false} TimeOutPath(limit: Limit, b: Bag, items: seq<Item>)
    requires multiset(items) <= b.leased
    ensures Path(limit, b, TimeOuts(limit, items), AllTimedOut(limit, b, items))
    decreases |items|
  {
    if items == [] {
      assert b.leased - multiset(items) == b.leased && b.waiting + multiset{} == b.waiting;
      assert b.dead + multiset{} == b.dead;
    } else {
      OneLess(b.leased, items);
      OneTimedOut(limit, b, items);
      hide Path, AllTimedOut, Do;
      TimeOutPath(limit, Do(b, TimeOut(limit, items[0])), items[1..]);
      PathCons(limit, b, TimeOut(limit, items[0]), TimeOuts(limit, items[1..]), AllTimedOut(limit, b, items));
    }
  }

  lemma OneTimedOut(limit: Limit, b: Bag, items: seq<Item>)
    requires items != [] && multiset(items) <= b.leased
    ensures items[0] in b.leased
    ensures var b1 := Do(b, TimeOut(limit, items[0]));
            multiset(items[1..]) <= b1.leased && AllTimedOut(limit, b1, items[1..]) == AllTimedOut(limit, b, items)
  {
    hide AtLimit, Again, Dead, AllTimedOut, Do;
    OneLess(b.leased, items);
    FirstTimedOut(limit, items);
    if AtLimit(limit, items[0].count + 1) { DeadLetterFirst(limit, b, items); } else { RequeueFirst(limit, b, items); }
  }

  lemma DeadLetterFirst(limit: Limit, b: Bag, items: seq<Item>)
    requires items != [] && multiset(items) <= b.leased
    requires Again(limit, items) == Again(limit, items[1..])
    requires Dead(limit, items) == multiset{items[0].payload} + Dead(limit, items[1..])
    ensures var b1 := Do(b, DeadLetter(items[0]));
            multiset(items[1..]) <= b1.leased && AllTimedOut(limit, b1, items[1..]) == AllTimedOut(limit, b, items)
  {
    hide AtLimit, Again, Dead;
    OneLess(b.leased, items);
    OneMore(b.dead, items[0].payload, Dead(limit, items[1..]));
  }

  lemma RequeueFirst(limit: Limit, b: Bag, items: seq<Item>)
    requires items != [] && multiset(items) <= b.leased && Dead(limit, items) == Dead(limit, items[1..])
    requires Again(limit, items) == multiset{Item(items[0].payload, items[0].count + 1)} + Again(limit, items[1..])
    ensures var b1 := Do(b, Requeue(items[0]));
            multiset(items[1..]) <= b1.leased && AllTimedOut(limit, b1, items[1..]) == AllTimedOut(limit, b, items)
  {
    hide Again, Dead, AllTimedOut;
    OneLess(b.leased, items);
    var b1 := Do(b, Requeue(items[0]));
    var (again, more) := (Again(limit, items[1..]), Item(items[0].payload, items[0].count + 1));
    OneMore(b.waiting, more, again);
    assert b1 == b.(leased := b.leased - multiset{items[0]}, waiting := b.waiting + multiset{more});
    AllTimedOutIs(limit, b1, items[1..]);
    AllTimedOutIs(limit, b, items);
  }

  lemma AllTimedOutIs(limit: Limit, b: Bag, items: seq<Item>)
    ensures AllTimedOut(limit, b, items)
         == Bag(b.waiting + Again(limit, items), b.leased - multiset(items), b.delayed, b.dead + Dead(limit, items))
  {
    hide Again, Dead;
  }

  lemma FirstTimedOut(limit: Limit, items: seq<Item>)
    requires items != []
    ensures var (again, dead) := (Again(limit, items[1..]), Dead(limit, items[1..]));
            if AtLimit(limit, items[0].count + 1)
            then Again(limit, items) == again && Dead(limit, items) == multiset{items[0].payload} + dead
            else Again(limit, items) == multiset{Item(items[0].payload, items[0].count + 1)} + again
                 && Dead(limit, items) == dead
  {
    hide AtLimit;
  }

  lemma {:induction false} LeasesAreMoves(items: seq<Item>)
    ensures MovesWithoutAck(Leases(items)) && |Leases(items)| == |items|
  {
    if items != [] { LeasesAreMoves(items[1..]); }
  }

  lemma {:induction false} TimeOutsAreMoves(limit: Limit, items: seq<Item>)
    ensures MovesWithoutAck(TimeOuts(limit, items)) && |TimeOuts(limit, items)| == |items|
  {
    if items != [] { TimeOutsAreMoves(limit, items[1..]); }
  }
}

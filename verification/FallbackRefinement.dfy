/** The list backend, its operations run one at a time, implements the bag queue. */
module FallbackRefinement {
  import opened Bytes
  import opened Codec
  import opened Ksuid
  import opened RedisLists
  import opened Retry
  import opened DelayedSet
  import opened FallbackQueue
  import opened DelayedKeys
  import opened BagBatches
  import B = BagQueue

  // ----- what the lists stand for -----

  function ItemOf(key: Bytes): B.Item { B.Item(PayloadOf(key), CountOf(key)) }

  function Items(keys: seq<Bytes>): multiset<B.Item> {
    if keys == [] then multiset{} else multiset{ItemOf(keys[0])} + Items(keys[1..])
  }

  function Abs(l: Lists): B.Bag {
    B.Bag(Items(l.main), Items(l.processing), Payloads(Keys(l.delayed)), multiset(l.dlq))
  }

  ghost predicate Valid(draw: Draw, l: Lists) {
    AllForm(l.main) && AllForm(l.processing) && DelayedOk(draw, l.drawn, l.delayed)
  }

  // ----- operations and the acts they carry out -----

  datatype Op =
    | Send(payload: Bytes)
    | Schedule(payload: Bytes, second: nat)
    | Receive
    | Ack(key: Bytes)
    | Nack(key: Bytes)
    | Sweep(cutoff: Bytes)
    | Move(second: nat)
    | Redrive

  /** `Ack` and `Nack` are of a delivery, so of a key that was decoded. */
  function Apply(limit: Limit, draw: Draw, l: Lists, op: Op): Lists {
    match op
    case Send(p) => SendOp(draw, l, p)
    case Schedule(p, second) => ScheduleOp(draw, l, p, second)
    case Receive => ReceiveOp(l)
    case Ack(key) => if HasForm(key) && Decode(key).Ok? then AckOp(l, key) else l
    case Nack(key) => if HasForm(key) && Decode(key).Ok? then NackOp(limit, l, key, Decode(key).receives) else l
    case Sweep(cutoff) => SweepOp(limit, draw, l, cutoff).0
    case Move(second) => MoveOp(draw, l, second).0
    case Redrive => if limit.Some? then RedriveOp(draw, l) else l
  }

  function SweepActs(limit: Limit, batch: seq<Bytes>, cutoff: Bytes): seq<B.Act> {
    if batch == [] then []
    else if !Expired(batch[0], cutoff) then SweepActs(limit, batch[1..], cutoff)
    else if !Decode(batch[0]).Ok? then []
    else [if AtLimit(limit, Decode(batch[0]).receives) then B.DeadLetter(ItemOf(batch[0]))
          else B.Requeue(ItemOf(batch[0]))]
         + SweepActs(limit, batch[1..], cutoff)
  }

  function Acts(limit: Limit, l: Lists, op: Op): seq<B.Act> {
    match op
    case Send(p) => [B.Send(p)]
    case Schedule(p, _) => [B.Schedule(p)]
    case Receive => if l.main == [] then [] else [B.Lease(ItemOf(l.main[|l.main| - 1]))]
    case Ack(key) => if HasForm(key) && Decode(key).Ok? && key in l.processing then [B.Ack(ItemOf(key))] else []
    case Nack(key) =>
      if !(HasForm(key) && Decode(key).Ok? && AtLimit(limit, Decode(key).receives)) then []
      else if key in l.processing then [B.DeadLetter(ItemOf(key))]
      else [B.Duplicate(PayloadOf(key))]
    case Sweep(cutoff) =>
      if l.processing == [] || !Expired(l.processing[|l.processing| - 1], cutoff) then []
      else SweepActs(limit, LastOf(l.processing, SWEEP_BATCH), cutoff)
    case Move(second) =>
      var batch := FirstOf(Due(l.delayed, second), MOVE_BATCH);
      if AllDecode(Keys(batch)) then Each(RELEASING, PayloadSeq(Keys(batch))) else []
    case Redrive => if limit.Some? then Each(REDRIVING, l.dlq) else []
  }

  // ----- items of lists -----

  lemma {:induction false} ItemsConcat(a: seq<Bytes>, b: seq<Bytes>)
    ensures Items(a + b) == Items(a) + Items(b)
  {
    hide ItemOf;
    if a == [] {
      assert a + b == b;
    } else {
      assert (a + b)[1..] == a[1..] + b;
      ItemsConcat(a[1..], b);
    }
  }

  lemma {:induction false} ItemsRemove(keys: seq<Bytes>, key: Bytes)
    requires key in keys
    ensures Items(keys) == Items(RemoveFirst(keys, key)) + multiset{ItemOf(key)}
  {
    hide ItemOf;
    if keys[0] != key {
      ItemsRemove(keys[1..], key);
      var rest := RemoveFirst(keys[1..], key);
      assert ([keys[0]] + rest)[1..] == rest;
    }
  }

  lemma ItemsCons(key: Bytes, keys: seq<Bytes>)
    ensures Items([key] + keys) == Items(keys) + multiset{ItemOf(key)}
  {
    assert ([key] + keys)[1..] == keys;
  }

  lemma ItemsSnoc(keys: seq<Bytes>, key: Bytes)
    ensures Items(keys + [key]) == Items(keys) + multiset{ItemOf(key)}
  {
    ItemsConcat(keys, [key]);
    ItemsCons(key, []);
    assert [key] + [] == [key];
  }

  lemma {:induction false} ItemsPushed(draw: Draw, main: seq<Bytes>, n: nat, bodies: seq<Bytes>)
    requires WellFormedIds(draw)
    ensures Items(PushHeads(main, Fresh(draw, n, bodies))) == Items(main) + ZeroItems(bodies)
    ensures AllForm(main) ==> AllForm(PushHeads(main, Fresh(draw, n, bodies)))
    decreases |bodies|
  {
    hide HasForm, PayloadOf, CountOf, IdOf, Encode, Items, Fresh;
    if bodies == [] {
      assert Fresh(draw, n, []) == [];
    } else {
      var key := Encode(draw(n), 0, bodies[0]);
      EncodeHasForm(draw(n), 0, bodies[0]);
      FreshCons(draw, n, bodies);
      assert ([key] + Fresh(draw, n + 1, bodies[1..]))[1..] == Fresh(draw, n + 1, bodies[1..]);
      ItemsPushed(draw, [key] + main, n + 1, bodies[1..]);
      ItemsCons(key, main);
      OneMore(Items(main), B.Item(bodies[0], 0), ZeroItems(bodies[1..]));
    }
  }

  lemma FreshCons(draw: Draw, n: nat, bodies: seq<Bytes>)
    requires bodies != []
    ensures Fresh(draw, n, bodies) == [Encode(draw(n), 0, bodies[0])] + Fresh(draw, n + 1, bodies[1..])
  {
  }

  // ----- one lemma per operation -----

  ghost predicate Refines(limit: Limit, draw: Draw, l: Lists, op: Op) {
    var l' := Apply(limit, draw, l, op);
    Valid(draw, l') && B.Path(limit, Abs(l), Acts(limit, l, op), Abs(l'))
  }

  /** An operation that carries out one act. */
  lemma OneAct(limit: Limit, draw: Draw, l: Lists, op: Op, a: B.Act)
    requires Valid(draw, Apply(limit, draw, l, op)) && Acts(limit, l, op) == [a]
    requires B.Enabled(limit, Abs(l), a) && B.Do(Abs(l), a) == Abs(Apply(limit, draw, l, op))
    ensures Refines(limit, draw, l, op)
  {
    hide Valid, Apply, Acts, Abs;
    B.PathOne(limit, Abs(l), a);
  }

  lemma SendRefines(limit: Limit, draw: Draw, l: Lists, p: Bytes)
    requires Valid(draw, l) && GoodDraw(draw)
    ensures Refines(limit, draw, l, Send(p))
  {
    hide HasForm, PayloadOf, CountOf, IdOf, Encode, DelayedOk, Items, Keys, Payloads, Refines;
    EncodeHasForm(draw(l.drawn), 0, p);
    ItemsCons(Encode(draw(l.drawn), 0, p), l.main);
    DelayedLater(draw, l.drawn, l.drawn + 1, l.delayed);
    OneAct(limit, draw, l, Send(p), B.Send(p));
  }

  lemma ReceiveRefines(limit: Limit, draw: Draw, l: Lists)
    requires Valid(draw, l)
    ensures Refines(limit, draw, l, Receive)
  {
    if l.main != [] {
      var key := l.main[|l.main| - 1];
      ReceiveOk(draw, l);
      ReceiveLeases(l);
      assert Acts(limit, l, Receive) == [B.Lease(ItemOf(key))];
      assert Apply(limit, draw, l, Receive) == ReceiveOp(l);
      assert ItemOf(key) in Abs(l).waiting;
      hide Valid, Abs, Acts, Apply, ItemOf, Refines, ReceiveOp, B.Do;
      OneAct(limit, draw, l, Receive, B.Lease(ItemOf(key)));
    }
  }

  lemma ReceiveOk(draw: Draw, l: Lists)
    requires Valid(draw, l) && l.main != []
    ensures Valid(draw, ReceiveOp(l))
  {
    hide HasForm, DelayedOk;
  }

  lemma ReceiveLeases(l: Lists)
    requires l.main != []
    ensures var item := ItemOf(l.main[|l.main| - 1]);
            item in Abs(l).waiting && B.Do(Abs(l), B.Lease(item)) == Abs(ReceiveOp(l))
  {
    hide ItemOf, Items, Keys, Payloads;
    var key := l.main[|l.main| - 1];
    assert l.main == l.main[..|l.main| - 1] + [key];
    ItemsSnoc(l.main[..|l.main| - 1], key);
    ItemsCons(key, l.processing);
  }

  /** LREM of a key that is there takes its item out of the leased ones. */
  lemma LeaseEnds(draw: Draw, l: Lists, l': Lists, key: Bytes)
    requires Valid(draw, l) && key in l.processing
    requires l' == l.(processing := RemoveFirst(l.processing, key), dlq := l'.dlq)
    ensures Valid(draw, l') && ItemOf(key) in Abs(l).leased && Abs(l).dead == multiset(l.dlq)
    ensures Abs(l') == Abs(l).(leased := Abs(l).leased - multiset{ItemOf(key)}, dead := multiset(l'.dlq))
  {
    hide HasForm, DelayedOk, ItemOf, Items, Keys, Payloads;
    ItemsRemove(l.processing, key);
    forall k | k in RemoveFirst(l.processing, key) ensures HasForm(k) { RemoveFirstMember(l.processing, key, k); }
  }

  lemma AckRefines(limit: Limit, draw: Draw, l: Lists, key: Bytes)
    requires Valid(draw, l)
    ensures Refines(limit, draw, l, Ack(key))
  {
    if HasForm(key) && Decode(key).Ok? && key in l.processing {
      hide HasForm, Valid, Abs, ItemOf, Decode, Refines;
      LeaseEnds(draw, l, AckOp(l, key), key);
      OneAct(limit, draw, l, Ack(key), B.Ack(ItemOf(key)));
    } else {
      hide HasForm, Valid, Abs, ItemOf, Decode;
      RemoveFirstAbsentUnless(l.processing, key);
    }
  }

  lemma RemoveFirstAbsentUnless(keys: seq<Bytes>, key: Bytes)
    ensures key in keys || RemoveFirst(keys, key) == keys
  {
    if key !in keys { RemoveFirstAbsent(keys, key); }
  }

  lemma NackRefines(limit: Limit, draw: Draw, l: Lists, key: Bytes)
    requires Valid(draw, l)
    ensures Refines(limit, draw, l, Nack(key))
  {
    if HasForm(key) && Decode(key).Ok? && AtLimit(limit, Decode(key).receives) {
      var l' := NackOp(limit, l, key, Decode(key).receives);
      NackShape(limit, draw, l, key);
      var a := if key in l.processing then B.DeadLetter(ItemOf(key)) else B.Duplicate(PayloadOf(key));
      assert Acts(limit, l, Nack(key)) == [a] by { hide HasForm, Decode, PayloadOf, ItemOf, AtLimit; }
      assert Apply(limit, draw, l, Nack(key)) == l' by { hide HasForm, Decode, PayloadOf, ItemOf, AtLimit, NackOp; }
      NackActs(limit, draw, l, l', key);
      hide Valid, Abs, Acts, Apply, ItemOf, Refines, NackOp, B.Do, B.Enabled, HasForm, Decode, AtLimit, PayloadOf;
      OneAct(limit, draw, l, Nack(key), a);
    } else {
      assert Acts(limit, l, Nack(key)) == [] && Apply(limit, draw, l, Nack(key)) == l by {
        hide HasForm, Decode, PayloadOf, ItemOf, AtLimit;
      }
      hide Valid, Abs, Acts, Apply, HasForm, Decode, AtLimit;
    }
  }

  lemma NackShape(limit: Limit, draw: Draw, l: Lists, key: Bytes)
    requires HasForm(key) && Decode(key).Ok? && AtLimit(limit, Decode(key).receives)
    ensures NackOp(limit, l, key, Decode(key).receives)
         == l.(dlq := l.dlq + [PayloadOf(key)], processing := RemoveFirst(l.processing, key))
    ensures AtLimit(limit, CountOf(key) + 1) && ItemOf(key) == B.Item(PayloadOf(key), CountOf(key))
  {
    hide HasForm, PayloadOf, CountOf, RemoveFirst;
    FormDecodes(key);
  }

  lemma NackActs(limit: Limit, draw: Draw, l: Lists, l': Lists, key: Bytes)
    requires Valid(draw, l) && limit.Some? && AtLimit(limit, CountOf(key) + 1)
    requires l' == l.(dlq := l.dlq + [PayloadOf(key)], processing := RemoveFirst(l.processing, key))
    ensures Valid(draw, l')
    ensures var a := if key in l.processing then B.DeadLetter(ItemOf(key)) else B.Duplicate(PayloadOf(key));
            B.Enabled(limit, Abs(l), a) && B.Do(Abs(l), a) == Abs(l')
  {
    hide CountOf, PayloadOf, Items, Payloads, Keys, DelayedOk, HasForm;
    if key in l.processing {
      LeaseEnds(draw, l, l', key);
    } else {
      RemoveFirstAbsent(l.processing, key);
    }
  }

  lemma ScheduleRefines(limit: Limit, draw: Draw, l: Lists, p: Bytes, second: nat)
    requires Valid(draw, l) && GoodDraw(draw)
    ensures Refines(limit, draw, l, Schedule(p, second))
  {
    var key := Encode(draw(l.drawn), 0, p);
    EncodeHasForm(draw(l.drawn), 0, p);
    DelayedAdd(draw, l.drawn, l.delayed, Member(second, key));
    hide HasForm, PayloadOf, CountOf, IdOf, Encode, DelayedOk, Items, Keys, Payloads, Refines, Valid;
    OneAct(limit, draw, l, Schedule(p, second), B.Schedule(p));
  }

  // ----- batches -----

  lemma RedriveRefines(limit: Limit, draw: Draw, l: Lists)
    requires Valid(draw, l) && GoodDraw(draw)
    ensures Refines(limit, draw, l, Redrive)
  {
    hide HasForm, PayloadOf, CountOf, IdOf, DelayedOk, Items, Keys, Payloads, Fresh, PushHeads, ZeroItems, Each;
    if limit.Some? {
      var l' := RedriveOp(draw, l);
      ItemsPushed(draw, l.main, l.drawn, l.dlq);
      DelayedLater(draw, l.drawn, l'.drawn, l.delayed);
      RedrivePath(limit, Abs(l), l.dlq);
      assert Abs(l).dead - multiset(l.dlq) == multiset{};
    }
  }

  lemma MoveRefines(limit: Limit, draw: Draw, l: Lists, second: nat)
    requires Valid(draw, l) && GoodDraw(draw)
    ensures Refines(limit, draw, l, Move(second))
  {
    hide Valid, Abs, MoveBatch, Keys, AllDecode, Due, FirstOf, RemoveEach, PayloadSeq, Each;
    var batch := FirstOf(Due(l.delayed, second), MOVE_BATCH);
    if AllDecode(Keys(batch)) {
      var rest := MovePrefix(l.delayed, second);
      MoveBatchOk(draw, l, batch, rest);
      MoveBatchActs(limit, draw, l, batch, rest);
    }
  }

  lemma MoveBatchOk(draw: Draw, l: Lists, batch: seq<Member>, rest: seq<Member>)
    requires Valid(draw, l) && GoodDraw(draw) && l.delayed == batch + rest && RemoveEach(l.delayed, batch) == rest
    ensures Valid(draw, MoveBatch(draw, l, batch))
  {
    hide HasForm, Fresh, PushHeads, RemoveEach, PayloadSeq, DelayedOk;
    ItemsPushed(draw, l.main, l.drawn, PayloadSeq(Keys(batch)));
    DelayedSuffix(draw, l.drawn, batch, rest);
    DelayedLater(draw, l.drawn, l.drawn + |batch|, rest);
  }

  lemma MoveBatchActs(limit: Limit, draw: Draw, l: Lists, batch: seq<Member>, rest: seq<Member>)
    requires WellFormedIds(draw) && l.delayed == batch + rest && RemoveEach(l.delayed, batch) == rest
    ensures B.Path(limit, Abs(l), Each(RELEASING, PayloadSeq(Keys(batch))), Abs(MoveBatch(draw, l, batch)))
  {
    hide HasForm, PayloadOf, Items, Payloads, PayloadSeq, Keys, Fresh, PushHeads, ZeroItems, Each, RemoveEach, B.Path;
    var bodies := PayloadSeq(Keys(batch));
    KeysConcat(batch, rest);
    PayloadsConcat(Keys(batch), Keys(rest));
    PayloadsAreTheSeq(Keys(batch));
    ItemsPushed(draw, l.main, l.drawn, bodies);
    ReleasePath(limit, Abs(l), bodies);
    assert Abs(l).delayed - multiset(bodies) == Payloads(Keys(rest));
  }

  lemma SweepOneRefines(limit: Limit, draw: Draw, l: Lists, key: Bytes)
    requires Valid(draw, l) && GoodDraw(draw) && key in l.processing && Decode(key).Ok?
    ensures Valid(draw, SweepOne(limit, draw, l, key))
    ensures var a := if AtLimit(limit, Decode(key).receives) then B.DeadLetter(ItemOf(key)) else B.Requeue(ItemOf(key));
            B.Enabled(limit, Abs(l), a) && B.Do(Abs(l), a) == Abs(SweepOne(limit, draw, l, key))
  {
    assert HasForm(key);
    FormDecodes(key);
    if AtLimit(limit, Decode(key).receives) {
      NackActs(limit, draw, l, SweepOne(limit, draw, l, key), key);
    } else {
      hide Decode, HasForm, Encode, Valid, RemoveFirst, Abs;
      Requeued(limit, draw, l, key);
    }
  }

  lemma Requeued(limit: Limit, draw: Draw, l: Lists, key: Bytes)
    requires Valid(draw, l) && GoodDraw(draw) && key in l.processing
    requires CountOf(key) < USIZE_MAX && !AtLimit(limit, CountOf(key) + 1)
    ensures var copy := Encode(draw(l.drawn), CountOf(key) + 1, PayloadOf(key));
            var l' := l.(main := l.main + [copy], drawn := l.drawn + 1, processing := RemoveFirst(l.processing, key));
            var a := B.Requeue(ItemOf(key));
            Valid(draw, l') && B.Enabled(limit, Abs(l), a) && B.Do(Abs(l), a) == Abs(l')
  {
    hide HasForm, PayloadOf, CountOf, IdOf, Encode, Items, Payloads, Keys, DelayedOk, RemoveFirst;
    var copy := Encode(draw(l.drawn), CountOf(key) + 1, PayloadOf(key));
    EncodeHasForm(draw(l.drawn), CountOf(key) + 1, PayloadOf(key));
    LeaseEnds(draw, l, l.(processing := RemoveFirst(l.processing, key)), key);
    ItemsSnoc(l.main, copy);
    DelayedLater(draw, l.drawn, l.drawn + 1, l.delayed);
  }

  lemma {:induction false} SweepBatchRefines(limit: Limit, draw: Draw, l: Lists, cutoff: Bytes, batch: seq<Bytes>)
    requires Valid(draw, l) && GoodDraw(draw) && multiset(batch) <= multiset(l.processing)
    ensures var l' := SweepBatch(limit, draw, l, cutoff, batch).0;
            Valid(draw, l') && B.Path(limit, Abs(l), SweepActs(limit, batch, cutoff), Abs(l'))
    decreases |batch|
  {
    hide Valid, Abs, Decode, Expired, ItemOf, GoodDraw, SweepOne, AtLimit;
    if batch != [] {
      assert batch == [batch[0]] + batch[1..];
      if !Expired(batch[0], cutoff) {
        SweepBatchRefines(limit, draw, l, cutoff, batch[1..]);
      } else if Decode(batch[0]).Ok? {
        assert batch[0] in multiset(batch);
        SweepOneRefines(limit, draw, l, batch[0]);
        var l1 := SweepOne(limit, draw, l, batch[0]);
        SweepOneRemoves(limit, draw, l, batch[0]);
        RemoveFirstBag(l.processing, batch[0]);
        SweepBatchRefines(limit, draw, l1, cutoff, batch[1..]);
        var acts := SweepActs(limit, batch, cutoff);
        assert acts[1..] == SweepActs(limit, batch[1..], cutoff);
      }
    }
  }

  lemma SweepOneRemoves(limit: Limit, draw: Draw, l: Lists, key: Bytes)
    requires Decode(key).Ok?
    ensures SweepOne(limit, draw, l, key).processing == RemoveFirst(l.processing, key)
  {
  }

  lemma SweepRefines(limit: Limit, draw: Draw, l: Lists, cutoff: Bytes)
    requires Valid(draw, l) && GoodDraw(draw)
    ensures Refines(limit, draw, l, Sweep(cutoff))
  {
    hide Valid, Abs, Expired, GoodDraw, SweepBatch, SweepActs;
    if l.processing != [] && Expired(l.processing[|l.processing| - 1], cutoff) {
      var batch := LastOf(l.processing, SWEEP_BATCH);
      assert l.processing == l.processing[..|l.processing| - |batch|] + batch;
      SweepBatchRefines(limit, draw, l, cutoff, batch);
    }
  }

  lemma OpRefines(limit: Limit, draw: Draw, l: Lists, op: Op)
    requires Valid(draw, l) && GoodDraw(draw)
    ensures Refines(limit, draw, l, op)
  {
    hide Refines, Valid, GoodDraw;
    match op
    case Send(p) => SendRefines(limit, draw, l, p);
    case Schedule(p, second) => ScheduleRefines(limit, draw, l, p, second);
    case Receive => ReceiveRefines(limit, draw, l);
    case Ack(key) => AckRefines(limit, draw, l, key);
    case Nack(key) => NackRefines(limit, draw, l, key);
    case Sweep(cutoff) => SweepRefines(limit, draw, l, cutoff);
    case Move(second) => MoveRefines(limit, draw, l, second);
    case Redrive => RedriveRefines(limit, draw, l);
  }

  // ----- runs -----

  const START: Lists := Lists([], [], [], [], 0)

  function ApplyAll(limit: Limit, draw: Draw, l: Lists, ops: seq<Op>): Lists
    decreases |ops|
  {
    if ops == [] then l else ApplyAll(limit, draw, Apply(limit, draw, l, ops[0]), ops[1..])
  }

  function ActsOfAll(limit: Limit, draw: Draw, l: Lists, ops: seq<Op>): seq<B.Act>
    decreases |ops|
  {
    if ops == [] then [] else Acts(limit, l, ops[0]) + ActsOfAll(limit, draw, Apply(limit, draw, l, ops[0]), ops[1..])
  }

  /** Every run of operations on the lists is a run of the bag queue, act for act. */
  lemma {:induction false} RunRefines(limit: Limit, draw: Draw, l: Lists, ops: seq<Op>)
    requires Valid(draw, l) && GoodDraw(draw)
    ensures var l' := ApplyAll(limit, draw, l, ops);
            Valid(draw, l') && B.Path(limit, Abs(l), ActsOfAll(limit, draw, l, ops), Abs(l'))
    decreases |ops|
  {
    hide Valid, GoodDraw, Abs, Apply, Acts;
    if ops != [] {
      OpRefines(limit, draw, l, ops[0]);
      var l1 := Apply(limit, draw, l, ops[0]);
      RunRefines(limit, draw, l1, ops[1..]);
      B.PathConcat(limit, Abs(l), Acts(limit, l, ops[0]), Abs(l1), ActsOfAll(limit, draw, l1, ops[1..]),
                   Abs(ApplyAll(limit, draw, l, ops)));
    }
  }

  /** From empty stores: the lists implement the bag queue, and with a retry limit counts stay below it. */
  lemma {:induction false} ListsImplementTheBagQueue(limit: Limit, draw: Draw, ops: seq<Op>)
    requires GoodDraw(draw)
    ensures var l' := ApplyAll(limit, draw, START, ops);
            B.Path(limit, B.EMPTY, ActsOfAll(limit, draw, START, ops), Abs(l')) && B.Bounded(limit, Abs(l'))
  {
    hide ApplyAll, ActsOfAll;
    assert Abs(START) == B.EMPTY;
    RunRefines(limit, draw, START, ops);
    B.PathKeepsBounds(limit, B.EMPTY, ActsOfAll(limit, draw, START, ops), Abs(ApplyAll(limit, draw, START, ops)));
  }
}

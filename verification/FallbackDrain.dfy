/** With a retry limit the list backend comes to rest, and only with every unacked message dead-lettered. */
module FallbackDrain {
  import opened Bytes
  import opened Codec
  import opened Ksuid
  import opened RedisLists
  import opened Retry
  import opened DelayedSet
  import opened DelayedKeys
  import opened FallbackQueue
  import opened FallbackRefinement
  import opened BagBatches
  import B = BagQueue

  /** An operation that adds nothing to circulation: a receive, a settlement, late ones included, or a pass. */
  predicate Drains(op: Op) {
    op.Ack? || op.Nack? || Drives(op)
  }

  /** What moves messages without anybody settling them: receives, sweeps and passes of the delayed mover. */
  predicate Drives(op: Op) {
    op.Receive? || op.Sweep? || op.Move?
  }

  predicate Empty(l: Lists) {
    l.main == [] && l.processing == [] && l.delayed == []
  }

  /** The lists of a backend whose retry limit is a machine integer. */
  ghost predicate Live(limit: nat, draw: Draw, l: Lists) {
    limit <= USIZE_MAX && Valid(draw, l) && GoodDraw(draw) && B.CountsBelow(limit, Abs(l))
  }

  /** So are the lists after any run from empty stores. */
  lemma RunsAreLive(limit: nat, draw: Draw, ops: seq<Op>)
    requires limit <= USIZE_MAX && GoodDraw(draw)
    ensures Live(limit, draw, ApplyAll(Some(limit), draw, START, ops))
  {
    hide ApplyAll, GoodDraw, Abs;
    assert Valid(draw, START);
    RunRefines(Some(limit), draw, START, ops);
    ListsImplementTheBagQueue(Some(limit), draw, ops);
  }

  // ----- what draining operations do -----

  lemma {:induction false} SweepActsAreMoves(limit: Limit, batch: seq<Bytes>, cutoff: Bytes)
    ensures B.MovesWithoutAck(SweepActs(limit, batch, cutoff))
  {
    hide Decode, Expired, ItemOf;
    if batch != [] { SweepActsAreMoves(limit, batch[1..], cutoff); }
  }

  lemma DrivingActs(limit: Limit, l: Lists, op: Op)
    requires Drives(op)
    ensures B.MovesWithoutAck(Acts(limit, l, op))
  {
    hide Decode, Expired, ItemOf, PayloadSeq, SweepActs, Each, AllDecode;
    match op
    case Sweep(cutoff) => SweepActsAreMoves(limit, LastOf(l.processing, SWEEP_BATCH), cutoff);
    case Move(second) => ReleasesAreMoves(PayloadSeq(Keys(FirstOf(Due(l.delayed, second), MOVE_BATCH))));
    case _ =>
  }

  /** A draining operation moves messages, or, a late `nack` at the limit, dead-letters once more. */
  lemma DrainingActs(limit: Limit, l: Lists, op: Op)
    requires Drains(op)
    ensures forall i | 0 <= i < |Acts(limit, l, op)| ::
              B.IsMove(Acts(limit, l, op)[i]) || Acts(limit, l, op)[i].Duplicate?
  {
    if Drives(op) {
      DrivingActs(limit, l, op);
    } else {
      hide Decode, HasForm, ItemOf, AtLimit;
    }
  }

  /** An operation keeps the lists live, and the measure pays for its moves. */
  lemma LiveAfter(limit: nat, draw: Draw, l: Lists, op: Op)
    requires Live(limit, draw, l) && Drains(op)
    ensures var l' := Apply(Some(limit), draw, l, op);
            && Live(limit, draw, l') && B.Path(Some(limit), Abs(l), Acts(Some(limit), l, op), Abs(l'))
            && B.Moves(Acts(Some(limit), l, op)) + B.Measure(limit, Abs(l')) <= B.Measure(limit, Abs(l))
  {
    hide Valid, GoodDraw, Abs, Apply, Acts, Drains, B.CountsBelow, B.Measure, B.Path, B.IsMove, B.Moves;
    OpRefines(Some(limit), draw, l, op);
    DrainingActs(Some(limit), l, op);
    B.MovesAreBounded(limit, Abs(l), Acts(Some(limit), l, op), Abs(Apply(Some(limit), draw, l, op)));
  }

  // ----- progress -----

  lemma {:induction false} ItemsMember(keys: seq<Bytes>, key: Bytes)
    requires key in keys
    ensures ItemOf(key) in Items(keys)
  {
    hide ItemOf;
    if keys[0] != key { ItemsMember(keys[1..], key); }
  }

  lemma LeasedDecode(limit: nat, draw: Draw, l: Lists, key: Bytes)
    requires Live(limit, draw, l) && key in l.processing
    ensures Decode(key).Ok?
  {
    hide HasForm, Items, Keys, Payloads, DelayedOk, Decode, PayloadOf, CountOf, GoodDraw;
    ItemsMember(l.processing, key);
    assert ItemOf(key).count == CountOf(key) < Max1(limit);
    FormDecodes(key);
  }

  lemma {:induction false} ExpiredTailActs(limit: Limit, batch: seq<Bytes>, cutoff: Bytes)
    requires batch != [] && Expired(batch[|batch| - 1], cutoff) && forall k | k in batch :: Decode(k).Ok?
    ensures SweepActs(limit, batch, cutoff) != []
  {
    hide Decode, Expired, ItemOf, AtLimit;
    assert batch[0] in batch;
    if !Expired(batch[0], cutoff) { ExpiredTailActs(limit, batch[1..], cutoff); }
  }

  /** Every sweep whose limit is past the oldest leased message moves something. */
  lemma SweepProgress(limit: nat, draw: Draw, l: Lists, cutoff: Bytes)
    requires Live(limit, draw, l) && l.processing != [] && Expired(l.processing[|l.processing| - 1], cutoff)
    ensures Acts(Some(limit), l, Sweep(cutoff)) != []
  {
    hide Live, Decode, Expired, SweepActs;
    var batch := LastOf(l.processing, SWEEP_BATCH);
    forall k | k in batch ensures Decode(k).Ok? { LeasedDecode(limit, draw, l, k); }
    ExpiredTailActs(Some(limit), batch, cutoff);
  }

  /** Every pass of the delayed mover at a time when something is due moves something. */
  lemma MoveProgress(limit: Limit, draw: Draw, l: Lists, second: nat)
    requires Valid(draw, l) && l.delayed != [] && l.delayed[0].score <= second
    ensures Acts(limit, l, Move(second)) != []
  {
    hide Decode, Due, Keys, PayloadSeq, Each, AllForm, AllDecode;
    var batch := FirstOf(Due(l.delayed, second), MOVE_BATCH);
    SomethingDue(l.delayed, second);
    DelayedDecode(draw, l.drawn, l.delayed, batch);
    ReleasesAreMoves(PayloadSeq(Keys(batch)));
  }

  /** The later of two limits of a sweep. */
  function Later(a: Bytes, b: Bytes): Bytes { if AtMost(a, b) then b else a }

  lemma LaterIsLater(a: Bytes, b: Bytes)
    ensures AtMost(a, Later(a, b)) && AtMost(b, Later(a, b))
  {
    AtMostTotal(a, b);
    AtMostReflexive(a);
    AtMostReflexive(b);
  }

  /**
   * There are no dead ends: unless every message is a dead letter, some receive, sweep or pass moves one, a sweep with
   * a limit no earlier than `cutoff`, a pass no earlier than `second`.
   */
  lemma Progress(limit: nat, draw: Draw, l: Lists, cutoff: Bytes, second: nat) returns (op: Op)
    requires Live(limit, draw, l) && !Empty(l)
    ensures Drives(op) && Acts(Some(limit), l, op) != []
    ensures (op.Sweep? ==> AtMost(cutoff, op.cutoff)) && (op.Move? ==> second <= op.second)
  {
    hide Valid, GoodDraw, B.CountsBelow, AtMost, SweepActs, Each, Due, AllDecode, ItemOf, Later;
    if l.main != [] {
      op := Receive;
    } else if l.processing != [] {
      var tail := l.processing[|l.processing| - 1];
      LaterIsLater(cutoff, tail);
      op := Sweep(Later(cutoff, tail));
      SweepProgress(limit, draw, l, Later(cutoff, tail));
    } else {
      var due := if second < l.delayed[0].score then l.delayed[0].score else second;
      op := Move(due);
      MoveProgress(Some(limit), draw, l, due);
    }
  }

  // ----- runs -----

  lemma {:induction false} DrainingRun(limit: nat, draw: Draw, l: Lists, ops: seq<Op>)
    requires Live(limit, draw, l) && forall i | 0 <= i < |ops| :: Drains(ops[i])
    ensures var (acts, l') := (ActsOfAll(Some(limit), draw, l, ops), ApplyAll(Some(limit), draw, l, ops));
            && Live(limit, draw, l') && B.Path(Some(limit), Abs(l), acts, Abs(l'))
            && B.Moves(acts) + B.Measure(limit, Abs(l')) <= B.Measure(limit, Abs(l))
    decreases |ops|
  {
    hide Live, Abs, Apply, Acts, Drains, B.Measure;
    if ops != [] {
      var l1 := Apply(Some(limit), draw, l, ops[0]);
      LiveAfter(limit, draw, l, ops[0]);
      DrainingRun(limit, draw, l1, ops[1..]);
      B.PathConcat(Some(limit), Abs(l), Acts(Some(limit), l, ops[0]), Abs(l1),
                   ActsOfAll(Some(limit), draw, l1, ops[1..]), Abs(ApplyAll(Some(limit), draw, l, ops)));
      B.MovesConcat(Acts(Some(limit), l, ops[0]), ActsOfAll(Some(limit), draw, l1, ops[1..]));
    }
  }

  lemma EmptyMass(l: Lists, x: Bytes)
    ensures Empty(l) ==> B.Mass(Abs(l), x) == multiset(l.dlq)[x]
  {
  }

  /** No draining operation moves a message. */
  ghost predicate AtRest(limit: nat, l: Lists) {
    forall op :: Drains(op) ==> B.Moves(Acts(Some(limit), l, op)) == 0
  }

  /**
   * No livelock and no deadlock: with a retry limit, receives, settlements and passes move messages only boundedly
   * often before something new is sent or redriven, and when none of them can any more, whatever was not acked is in
   * the dead-letter list, with what late `nack`s have added to it.
   */
  lemma ListsDrain(limit: nat, draw: Draw, l: Lists, ops: seq<Op>, x: Bytes)
    requires Live(limit, draw, l) && forall i | 0 <= i < |ops| :: Drains(ops[i])
    ensures var (acts, l') := (ActsOfAll(Some(limit), draw, l, ops), ApplyAll(Some(limit), draw, l, ops));
            && B.Moves(acts) <= B.Measure(limit, Abs(l))
            && (AtRest(limit, l') <==> Empty(l'))
            && (AtRest(limit, l') ==> multiset(l'.dlq)[x] == B.Mass(Abs(l), x) + B.Gains(acts, x))
  {
    hide ApplyAll, ActsOfAll, Drains, B.Measure, B.Mass, B.Gains, B.Path, B.Moves;
    DrainingRun(limit, draw, l, ops);
    var (acts, l') := (ActsOfAll(Some(limit), draw, l, ops), ApplyAll(Some(limit), draw, l, ops));
    B.PathGains(Some(limit), Abs(l), acts, Abs(l'), x);
    EmptyMass(l', x);
    if Empty(l') {
      NothingMoves(limit, l');
    } else {
      var op := Progress(limit, draw, l', [], 0);
      DrivesMove(Some(limit), l', op);
    }
  }

  lemma DrivesMove(limit: Limit, l: Lists, op: Op)
    requires Drives(op)
    ensures Drains(op) && B.Moves(Acts(limit, l, op)) == |Acts(limit, l, op)|
  {
    hide Acts, B.IsMove;
    DrivingActs(limit, l, op);
    B.AllMoves(Acts(limit, l, op));
  }

  lemma NothingMoves(limit: nat, l: Lists)
    requires Empty(l)
    ensures AtRest(limit, l)
  {
    hide Decode, HasForm, Expired, ItemOf, AtLimit;
    forall op | Drains(op) ensures B.Moves(Acts(Some(limit), l, op)) == 0 {
      match op
      case Nack(key) => DuplicatesAreNoMoves(PayloadOf(key));
      case _ =>
    }
  }

  lemma DuplicatesAreNoMoves(p: Bytes)
    ensures B.Moves([B.Duplicate(p)]) == 0
  {
    assert [B.Duplicate(p)][1..] == [];
  }

  /** Neither the limits of sweeps nor the seconds of passes go back. */
  predicate TimesGrow(cutoff: Bytes, second: nat, ops: seq<Op>)
    decreases |ops|
  {
    ops == []
    || (match ops[0]
        case Sweep(c) => AtMost(cutoff, c) && TimesGrow(c, second, ops[1..])
        case Move(t) => second <= t && TimesGrow(cutoff, t, ops[1..])
        case _ => TimesGrow(cutoff, second, ops[1..]))
  }

  /** One driving operation that acts keeps every message and lowers the measure. */
  lemma DriveOnce(limit: nat, draw: Draw, l: Lists, cutoff: Bytes, second: nat) returns (op: Op)
    requires Live(limit, draw, l) && !Empty(l)
    ensures var l1 := Apply(Some(limit), draw, l, op);
            && Drives(op) && Live(limit, draw, l1) && B.Measure(limit, Abs(l1)) < B.Measure(limit, Abs(l))
            && forall x :: B.Mass(Abs(l1), x) == B.Mass(Abs(l), x)
    ensures (op.Sweep? ==> AtMost(cutoff, op.cutoff)) && (op.Move? ==> second <= op.second)
  {
    hide Live, Empty, Abs, Apply, Acts, Drives, AtMost, B.Measure, B.Mass, B.Path, B.Moves;
    op := Progress(limit, draw, l, cutoff, second);
    DrivesMove(Some(limit), l, op);
    LiveAfter(limit, draw, l, op);
    DrivingActs(Some(limit), l, op);
    forall x ensures B.Mass(Abs(Apply(Some(limit), draw, l, op)), x) == B.Mass(Abs(l), x) {
      B.PathGains(Some(limit), Abs(l), Acts(Some(limit), l, op), Abs(Apply(Some(limit), draw, l, op)), x);
      B.NoAckNoGain(Acts(Some(limit), l, op), x);
    }
  }

  lemma NoOps(limit: Limit, draw: Draw, l: Lists)
    ensures ApplyAll(limit, draw, l, []) == l
  {
  }

  lemma OpThen(limit: Limit, draw: Draw, l: Lists, op: Op, ops: seq<Op>)
    ensures ApplyAll(limit, draw, l, [op] + ops) == ApplyAll(limit, draw, Apply(limit, draw, l, op), ops)
  {
    hide Apply;
    assert ([op] + ops)[1..] == ops;
  }

  /**
   * Drained by itself: from any live lists and any time on, some receives, sweeps and passes at times that do not go
   * back, without a single ack, lead to empty lists with every message in the dead-letter list as often as it was
   * there.
   */
  lemma {:induction false} ListsCanDrain(limit: nat, draw: Draw, l: Lists, cutoff: Bytes, second: nat)
      returns (ops: seq<Op>)
    requires Live(limit, draw, l)
    ensures var l' := ApplyAll(Some(limit), draw, l, ops);
            && (forall i | 0 <= i < |ops| :: Drives(ops[i])) && |ops| <= B.Measure(limit, Abs(l))
            && TimesGrow(cutoff, second, ops)
            && Empty(l') && forall x :: multiset(l'.dlq)[x] == B.Mass(Abs(l), x)
    decreases B.Measure(limit, Abs(l))
  {
    hide Live, Empty, Abs, Apply, ApplyAll, Drives, AtMost, B.Measure, B.Mass;
    if Empty(l) {
      ops := [];
      NoOps(Some(limit), draw, l);
      forall x ensures multiset(l.dlq)[x] == B.Mass(Abs(l), x) { EmptyMass(l, x); }
    } else {
      var op := DriveOnce(limit, draw, l, cutoff, second);
      var (c, t) := (if op.Sweep? then op.cutoff else cutoff, if op.Move? then op.second else second);
      var rest := ListsCanDrain(limit, draw, Apply(Some(limit), draw, l, op), c, t);
      ops := [op] + rest;
      assert ops[1..] == rest;
      OpThen(Some(limit), draw, l, op, rest);
    }
  }
}

/** With a retry limit the stream backend comes to rest, and only with every unacked message dead-lettered. */
module StreamsDrain {
  import opened Bytes
  import opened Codec
  import opened Ksuid
  import opened RedisLists
  import opened Retry
  import opened DelayedSet
  import opened DelayedKeys
  import P = StreamsProtocol
  import opened StreamEntries
  import opened StreamsQueue
  import opened StreamsRefinement
  import opened BagBatches
  import B = BagQueue

  /** An operation that adds nothing to circulation. */
  predicate Drains(op: Op) {
    op.Ack? || op.Nack? || Drives(op)
  }

  /** What moves messages without anybody settling them: reads, sweeps and passes of the delayed mover. */
  predicate Drives(op: Op) {
    op.Read? || op.Sweep? || op.Move?
  }

  predicate Empty(s: Streams) {
    s.stream == [] && s.delayed == []
  }

  /** The stores of a backend whose retry limit is a machine integer. */
  ghost predicate Live(c: P.Config, draw: Draw, s: Streams) {
    && c.limit.Some? && c.limit.value <= USIZE_MAX && Valid(draw, s) && GoodDraw(draw)
    && B.CountsBelow(c.limit.value, Abs(s))
  }

  /** So are the stores after any run from an empty stream. */
  lemma RunsAreLive(c: P.Config, draw: Draw, ops: seq<Op>)
    requires c.limit.Some? && c.limit.value <= USIZE_MAX && GoodDraw(draw)
    ensures Live(c, draw, ApplyAll(c, draw, START, ops))
  {
    hide ApplyAll, GoodDraw, Abs;
    assert Valid(draw, START);
    RunRefines(c, draw, START, ops);
    StreamsImplementTheBagQueue(c, draw, ops);
  }

  // ----- sweeps get through -----

  lemma {:induction false} ReadBelow(limit: nat, stream: seq<P.Entry>, last: nat, e: P.Entry)
    requires e in stream && forall i | i in Upto(stream, last) + After(stream, last) :: i.count < Max1(limit)
    ensures e.count < Max1(limit)
  {
    hide ItemOf;
    FirstEntry(stream, last);
    if stream[0] == e {
      ItemOfIs(e);
      assert ItemOf(e) in Upto(stream, last) + After(stream, last);
    } else {
      assert e in stream[1..];
      forall i | i in Upto(stream[1..], last) + After(stream[1..], last) ensures i.count < Max1(limit) {
        assert i in Upto(stream, last) + After(stream, last);
      }
      ReadBelow(limit, stream[1..], last, e);
    }
  }

  lemma {:induction false} AllVisited(limit: Limit, s: Streams, batch: seq<P.Entry>)
    requires StreamOk(s) && forall e | e in batch :: e in s.stream && P.Readable(e)
    ensures Visit(limit, s.stream, batch).1
    decreases |batch|
  {
    hide StreamOk, P.BodyOf, AtLimit;
    if batch != [] {
      assert batch[0] in batch;
      BodyInStream(s, batch[0]);
      AllVisited(limit, s, batch[1..]);
    }
  }

  lemma ClaimedAreReadable(c: P.Config, draw: Draw, s: Streams, batch: seq<P.Entry>, now: nat)
    requires Live(c, draw, s) && ClaimReply(c, s, batch, now)
    ensures StreamOk(s) && forall e | e in batch :: e in s.stream && P.Readable(e)
  {
    hide Upto, After, GoodDraw, DelayedOk;
    ClaimedAreRead(c, s, batch, now);
    forall e | e in batch ensures e in s.stream && P.Readable(e) {
      ReadBelow(c.limit.value, s.stream, s.lastRead, e);
    }
  }

  /** With a retry limit that is a machine integer no count outgrows it, so no sweep ends early. */
  lemma SweepsFinish(c: P.Config, draw: Draw, s: Streams, batch: seq<P.Entry>, now: nat)
    requires Live(c, draw, s) && ClaimReply(c, s, batch, now)
    ensures Visit(c.limit, s.stream, batch).1 && SweepOp(c.limit, s, batch, now).1
  {
    hide Visit, Live, ClaimReply, StreamOk;
    ClaimedAreReadable(c, draw, s, batch, now);
    AllVisited(c.limit, s, batch);
  }

  // ----- what draining operations do -----

  lemma DrivingActs(c: P.Config, draw: Draw, s: Streams, op: Op)
    requires Live(c, draw, s) && Drives(op)
    ensures B.MovesWithoutAck(Acts(c, s, op))
  {
    hide Live, ClaimReply, Visit, TimeOuts, Leases, Each, Items, ItemOf, AllDecode, PayloadSeq, SweepOp;
    match op
    case Read(max, _) => LeasesAreMoves(Items(P.Unread(s.stream, s.lastRead, max)));
    case Sweep(batch, now) =>
      if ClaimReply(c, s, batch, now) {
        SweepsFinish(c, draw, s, batch, now);
        TimeOutsAreMoves(c.limit, Items(batch));
      }
    case Move(second) => ReleasesAreMoves(PayloadSeq(Keys(FirstOf(Due(s.delayed, second), MOVE_BATCH))));
    case _ =>
  }

  lemma DrainingActs(c: P.Config, draw: Draw, s: Streams, op: Op)
    requires Live(c, draw, s) && Drains(op)
    ensures forall i | 0 <= i < |Acts(c, s, op)| :: B.IsMove(Acts(c, s, op)[i])
  {
    if Drives(op) {
      DrivingActs(c, draw, s, op);
    } else {
      hide Live;
      SettlingActs(c, s, op);
    }
  }

  lemma SettlingActs(c: P.Config, s: Streams, op: Op)
    requires op.Ack? || op.Nack?
    ensures forall i | 0 <= i < |Acts(c, s, op)| :: B.IsMove(Acts(c, s, op)[i])
  {
    hide Delivered, ItemOf, AtLimit, ClaimReply, Visit, TimeOuts, Leases, Each, Items, AllDecode, PayloadSeq;
  }

  /** An operation keeps the stores live, and its acts are paid for by the measure. */
  lemma LiveAfter(c: P.Config, draw: Draw, s: Streams, op: Op)
    requires Live(c, draw, s) && Drains(op)
    ensures var s' := Apply(c, draw, s, op);
            && Live(c, draw, s') && B.Path(c.limit, Abs(s), Acts(c, s, op), Abs(s'))
            && |Acts(c, s, op)| + B.Measure(c.limit.value, Abs(s')) <= B.Measure(c.limit.value, Abs(s))
  {
    DrainingActs(c, draw, s, op);
    hide Valid, GoodDraw, Abs, Apply, Acts, Drains, B.CountsBelow, B.Measure, B.Path, B.IsMove;
    OpRefines(c, draw, s, op);
    B.NoLivelock(c.limit.value, Abs(s), Acts(c, s, op), Abs(Apply(c, draw, s, op)));
  }

  // ----- progress -----

  /** Every sweep that claims something moves it. */
  lemma SweepProgress(c: P.Config, draw: Draw, s: Streams, batch: seq<P.Entry>, now: nat)
    requires Live(c, draw, s) && ClaimReply(c, s, batch, now) && batch != []
    ensures Acts(c, s, Sweep(batch, now)) != []
  {
    hide Live, ClaimReply, Visit, TimeOuts, ItemOf, SweepOp;
    SweepsFinish(c, draw, s, batch, now);
    TimeOutsAreMoves(c.limit, Items(batch));
  }

  /**
   * Any batch of entries that were read and not settled can be claimed whenever each has been idle for the deadline,
   * if there are at most 1000 of them, all different.
   */
  lemma Claimable(c: P.Config, s: Streams, batch: seq<P.Entry>, now: nat)
    requires PendingOk(s) && forall e | e in batch :: e in s.stream && e.id <= s.lastRead
    ensures forall e | e in batch :: e.id in s.pending
    ensures ClaimReply(c, s, batch, now)
       <==> && |batch| <= 1000 && (forall i, j | 0 <= i < j < |batch| :: batch[i].id != batch[j].id)
            && forall e | e in batch :: now >= s.pending[e.id] + c.ackDeadline
  {
    forall e | e in batch ensures e.id in s.pending { PresentMember(s.stream, e.id); }
    assert forall i | 0 <= i < |batch| :: batch[i] in batch && P.Ids(batch)[i] == batch[i].id;
  }

  /** Every pass of the delayed mover at a time when something is due moves something. */
  lemma MoveProgress(c: P.Config, draw: Draw, s: Streams, second: nat)
    requires Valid(draw, s) && s.delayed != [] && s.delayed[0].score <= second
    ensures Acts(c, s, Move(second)) != []
  {
    hide StreamOk, PendingOk, Due, Keys, PayloadSeq, Each, DelayedOk, AllDecode;
    var batch := FirstOf(Due(s.delayed, second), MOVE_BATCH);
    SomethingDue(s.delayed, second);
    DelayedDecode(draw, s.drawn, s.delayed, batch);
    ReleasesAreMoves(PayloadSeq(Keys(batch)));
  }

  /** The second a pass at time `now`, in milliseconds, looks up to. */
  function SecondBefore(now: nat): nat { if now >= 1000 then now / 1000 - 1 else 0 }

  /** The first time from `now` on at which what is due in `second` is moved. */
  function TimeFor(now: nat, second: nat): nat { if now < 1000 * (second + 1) then 1000 * (second + 1) else now }

  lemma ItsSecond(now: nat, second: nat)
    ensures TimeFor(now, second) >= 1000 && SecondBefore(TimeFor(now, second)) >= second
  {
  }

  /** An operation can take place at `t`. */
  predicate TimeFits(op: Op, t: nat) {
    match op
    case Read(_, now) => now == t
    case Sweep(_, now) => now == t
    case Move(second) => t >= 1000 && second == SecondBefore(t)
    case _ => true
  }

  /**
   * There are no dead ends: unless every message is a dead letter, some read, sweep or pass no earlier than `now` moves
   * one.
   */
  lemma Progress(c: P.Config, draw: Draw, s: Streams, now: nat) returns (op: Op, t: nat)
    requires Live(c, draw, s) && !Empty(s)
    ensures Drives(op) && Acts(c, s, op) != [] && t >= now && TimeFits(op, t)
  {
    hide GoodDraw, B.CountsBelow, Each, Due, AllDecode, ItemOf, PendingOk, Leases, ClaimReply, TimeOuts, Visit;
    if s.stream == [] {
      t := TimeFor(now, s.delayed[0].score);
      ItsSecond(now, s.delayed[0].score);
      op := Move(SecondBefore(t));
      MoveProgress(c, draw, s, SecondBefore(t));
    } else if s.stream[0].id <= s.lastRead {
      var e := s.stream[0];
      Claimable(c, s, [e], 0);
      t := now + s.pending[e.id] + c.ackDeadline;
      Claimable(c, s, [e], t);
      op := Sweep([e], t);
      SweepProgress(c, draw, s, [e], t);
    } else {
      t := now;
      op := Read(1, now);
      LeasesAreMoves(Items(P.Unread(s.stream, s.lastRead, 1)));
    }
  }

  // ----- runs -----

  lemma {:induction false} DrainingRun(c: P.Config, draw: Draw, s: Streams, ops: seq<Op>)
    requires Live(c, draw, s) && forall i | 0 <= i < |ops| :: Drains(ops[i])
    ensures var (acts, s') := (ActsOfAll(c, draw, s, ops), ApplyAll(c, draw, s, ops));
            && Live(c, draw, s') && B.Path(c.limit, Abs(s), acts, Abs(s'))
            && |acts| + B.Measure(c.limit.value, Abs(s')) <= B.Measure(c.limit.value, Abs(s))
    decreases |ops|
  {
    LimitOf(c, draw, s);
    hide Live, Abs, Apply, Acts, Drains, B.Measure;
    if ops != [] {
      var s1 := Apply(c, draw, s, ops[0]);
      LiveAfter(c, draw, s, ops[0]);
      DrainingRun(c, draw, s1, ops[1..]);
      B.PathConcat(c.limit, Abs(s), Acts(c, s, ops[0]), Abs(s1), ActsOfAll(c, draw, s1, ops[1..]),
                   Abs(ApplyAll(c, draw, s, ops)));
    }
  }

  lemma LimitOf(c: P.Config, draw: Draw, s: Streams)
    requires Live(c, draw, s)
    ensures c.limit.Some?
  {
  }

  lemma EmptyMass(s: Streams, x: Bytes)
    ensures Empty(s) ==> B.Mass(Abs(s), x) == multiset(s.dlq)[x]
  {
  }

  /** No draining operation changes what the stores stand for. */
  ghost predicate AtRest(c: P.Config, s: Streams) {
    forall op :: Drains(op) ==> Acts(c, s, op) == []
  }

  lemma ClaimedExist(c: P.Config, s: Streams, batch: seq<P.Entry>, now: nat)
    requires ClaimReply(c, s, batch, now)
    ensures s.stream == [] ==> batch == []
  {
    assert 0 < |batch| ==> batch[0] in s.stream;
  }

  lemma NothingActs(c: P.Config, s: Streams)
    requires Empty(s)
    ensures AtRest(c, s)
  {
    forall op | Drains(op) ensures Acts(c, s, op) == [] {
      match op
      case Sweep(batch, now) =>
        if ClaimReply(c, s, batch, now) { ClaimedExist(c, s, batch, now); }
        NoTimeOuts(c.limit);
        NoItems();
      case _ =>
    }
  }

  /**
   * No livelock and no deadlock: with a retry limit, reads, settlements and passes act only boundedly often before
   * something new is sent or redriven, and when none of them can act any more, whatever was not acked is in the
   * dead-letter list.
   */
  lemma StreamsDrain(c: P.Config, draw: Draw, s: Streams, ops: seq<Op>, x: Bytes)
    requires Live(c, draw, s) && forall i | 0 <= i < |ops| :: Drains(ops[i])
    ensures var (acts, s') := (ActsOfAll(c, draw, s, ops), ApplyAll(c, draw, s, ops));
            && |acts| <= B.Measure(c.limit.value, Abs(s))
            && (AtRest(c, s') <==> Empty(s'))
            && (AtRest(c, s') ==> multiset(s'.dlq)[x] == B.Mass(Abs(s), x) + B.Gains(acts, x))
  {
    LimitOf(c, draw, s);
    hide ApplyAll, ActsOfAll, Drains, Live, B.Measure, B.Mass, B.Gains, B.Path;
    DrainingRun(c, draw, s, ops);
    var (acts, s') := (ActsOfAll(c, draw, s, ops), ApplyAll(c, draw, s, ops));
    B.PathGains(c.limit, Abs(s), acts, Abs(s'), x);
    EmptyMass(s', x);
    if Empty(s') {
      NothingActs(c, s');
    } else {
      var op, _ := Progress(c, draw, s', 0);
      DrivesDrains(op);
    }
  }

  lemma DrivesDrains(op: Op)
    requires Drives(op)
    ensures Drains(op)
  {
  }

  lemma NoOps(c: P.Config, draw: Draw, s: Streams)
    ensures ApplyAll(c, draw, s, []) == s
  {
  }

  lemma OpThen(c: P.Config, draw: Draw, s: Streams, op: Op, ops: seq<Op>)
    ensures ApplyAll(c, draw, s, [op] + ops) == ApplyAll(c, draw, Apply(c, draw, s, op), ops)
  {
    hide Apply;
    assert ([op] + ops)[1..] == ops;
  }

  /** One driving operation that acts keeps every message and lowers the measure. */
  lemma DriveOnce(c: P.Config, draw: Draw, s: Streams, now: nat) returns (op: Op, t: nat)
    requires c.limit.Some? && Live(c, draw, s) && !Empty(s)
    ensures var s1 := Apply(c, draw, s, op);
            && Drives(op) && Live(c, draw, s1) && B.Measure(c.limit.value, Abs(s1)) < B.Measure(c.limit.value, Abs(s))
            && forall x :: B.Mass(Abs(s1), x) == B.Mass(Abs(s), x)
    ensures t >= now && TimeFits(op, t)
  {
    hide Live, Empty, Abs, Apply, Acts, Drives, TimeFits, B.Measure, B.Mass, B.Path;
    op, t := Progress(c, draw, s, now);
    DrivesDrains(op);
    LiveAfter(c, draw, s, op);
    DrivingActs(c, draw, s, op);
    forall x ensures B.Mass(Abs(Apply(c, draw, s, op)), x) == B.Mass(Abs(s), x) {
      B.PathGains(c.limit, Abs(s), Acts(c, s, op), Abs(Apply(c, draw, s, op)), x);
      B.NoAckNoGain(Acts(c, s, op), x);
    }
  }

  /** The operations can take place one after the other from `now` on, at times that do not go back. */
  ghost predicate InTime(now: nat, ops: seq<Op>)
    decreases |ops|
  {
    ops == [] || exists t: nat :: now <= t && TimeFits(ops[0], t) && InTime(t, ops[1..])
  }

  /**
   * Drained by itself: from any live stores and any time on, some reads, sweeps and passes at times that do not go
   * back, without a single ack, lead to empty ones with every message in the dead-letter list as often as it was there.
   */
  lemma {:induction false} StreamsCanDrain(c: P.Config, draw: Draw, s: Streams, now: nat) returns (ops: seq<Op>)
    requires c.limit.Some? && Live(c, draw, s)
    ensures var s' := ApplyAll(c, draw, s, ops);
            && (forall i | 0 <= i < |ops| :: Drives(ops[i])) && |ops| <= B.Measure(c.limit.value, Abs(s))
            && InTime(now, ops)
            && Empty(s') && forall x :: multiset(s'.dlq)[x] == B.Mass(Abs(s), x)
    decreases B.Measure(c.limit.value, Abs(s))
  {
    hide Live, Empty, Abs, Apply, ApplyAll, Drives, TimeFits, B.Measure, B.Mass;
    if Empty(s) {
      ops := [];
      NoOps(c, draw, s);
      forall x ensures multiset(s.dlq)[x] == B.Mass(Abs(s), x) { EmptyMass(s, x); }
    } else {
      var op, t := DriveOnce(c, draw, s, now);
      var rest := StreamsCanDrain(c, draw, Apply(c, draw, s, op), t);
      ops := [op] + rest;
      assert ops[1..] == rest;
      OpThen(c, draw, s, op, rest);
    }
  }
}

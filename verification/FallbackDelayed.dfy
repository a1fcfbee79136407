/** The list backend delivers a scheduled message never before its delay is over, and soon after. */
module FallbackDelayed {
  import opened Bytes
  import opened Codec
  import opened Ksuid
  import opened RedisLists
  import opened Retry
  import opened DelayedSet
  import opened DelayedKeys
  import opened FallbackQueue
  import opened FallbackRefinement
  import opened FallbackKeys

  /** No operation of `ops` is a pass of the mover later than `t`; a pass looks at the second before it. */
  ghost predicate PassesBy(ops: seq<Op>, t: real) {
    forall i | 0 <= i < |ops| && ops[i].Move? :: ops[i].second as real + 1.0 <= t
  }

  lemma StaysThroughOp(limit: Limit, draw: Draw, l: Lists, op: Op, m: Member)
    requires Valid(draw, l) && GoodDraw(draw) && m in l.delayed && (op.Move? ==> op.second < m.score)
    ensures m in Apply(limit, draw, l, op).delayed
  {
    hide AllForm, SendOp, ReceiveOp, AckOp, NackOp, MoveOp, RedriveOp, SweepBatch, HasForm, Decode, Encode, IdOf,
         CountOf;
    match op
    case Schedule(p, second) => ScheduledJoins(draw, l.drawn, l.delayed, p, second);
    case Move(second) => StaysInPass(draw, l, second, m);
    case Sweep(cutoff) => SweepKeepsDelayed(limit, draw, l, cutoff, LastOf(l.processing, SWEEP_BATCH));
    case _ => OthersKeepDelayed(limit, draw, l, op);
  }

  lemma OthersKeepDelayed(limit: Limit, draw: Draw, l: Lists, op: Op)
    requires !op.Schedule? && !op.Move? && !op.Sweep?
    ensures Apply(limit, draw, l, op).delayed == l.delayed
  {
    hide HasForm, Decode, Encode, Fresh, PushHeads, RemoveFirst, AtLimit;
  }

  lemma {:induction false} SweepKeepsDelayed(limit: Limit, draw: Draw, l: Lists, cutoff: Bytes, batch: seq<Bytes>)
    ensures SweepBatch(limit, draw, l, cutoff, batch).0.delayed == l.delayed
    decreases |batch|
  {
    hide Decode, Expired, Encode, RemoveFirst, AtLimit;
    if batch != [] {
      SweepKeepsDelayed(limit, draw, l, cutoff, batch[1..]);
      if Decode(batch[0]).Ok? {
        SweepKeepsDelayed(limit, draw, SweepOne(limit, draw, l, batch[0]), cutoff, batch[1..]);
      }
    }
  }

  lemma StaysInPass(draw: Draw, l: Lists, second: nat, m: Member)
    requires Sorted(l.delayed) && m in l.delayed && second < m.score
    ensures m in MoveOp(draw, l, second).0.delayed
  {
    hide MoveOp, Sorted, PassSize;
    PassTakesDue(draw, l, second);
    PassTakesTheFirst(l.delayed, second);
    LaterThanPass(l.delayed, PassSize(l.delayed, second), second, m);
  }

  lemma {:induction false} Stays(limit: Limit, draw: Draw, l: Lists, ops: seq<Op>, m: Member, t: real)
    requires Valid(draw, l) && GoodDraw(draw) && m in l.delayed && m.score == t.Floor && PassesBy(ops, t)
    ensures m in ApplyAll(limit, draw, l, ops).delayed
    decreases |ops|
  {
    hide Valid, GoodDraw, Apply;
    if ops != [] {
      assert ops[0].Move? ==> ops[0].second < m.score;
      StaysThroughOp(limit, draw, l, ops[0], m);
      OpRefines(limit, draw, l, ops[0]);
      Stays(limit, draw, Apply(limit, draw, l, ops[0]), ops[1..], m, t);
    }
  }

  lemma {:induction false} ApplyInTurn(limit: Limit, draw: Draw, l: Lists, a: seq<Op>, b: seq<Op>)
    ensures ApplyAll(limit, draw, l, a + b) == ApplyAll(limit, draw, ApplyAll(limit, draw, l, a), b)
    decreases |a|
  {
    hide Apply;
    if a == [] {
      assert a + b == b;
    } else {
      assert (a + b)[1..] == a[1..] + b;
      ApplyInTurn(limit, draw, Apply(limit, draw, l, a[0]), a[1..], b);
    }
  }

  /** In the order of popping, a message with payload `p` and count 0 has come behind everything in `main`. */
  ghost predicate Joined(main: seq<Bytes>, main': seq<Bytes>, p: Bytes) {
    exists i :: |main| <= i < |main'| && PayloadOf(Reverse(main')[i]) == p && CountOf(Reverse(main')[i]) == 0
  }

  /**
   * A message scheduled at `now` with delay `delay`, after any operations `before`: it is the one new member, its
   * score the second it is due in. It stays delayed through any further operations with passes up to the time it is
   * due, and once passes are repeated at any time `t` a second later or more, it has left for main.
   */
  lemma {:induction false} ScheduledOnTime(limit: Limit, draw: Draw, before: seq<Op>, payload: Bytes, now: real,
                                           delay: real, after: seq<Op>, t: real)
    requires GoodDraw(draw) && now + delay >= 0.0 && PassesBy(after, now + delay) && t >= now + delay + 1.0
    ensures var l0 := ApplyAll(limit, draw, START, before);
            var l1 := ScheduleOp(draw, l0, payload, UnixTimestamp(now + delay).value);
            var m := Member((now + delay).Floor, Encode(draw(l0.drawn), 0, payload));
            var l := ApplyAll(limit, draw, l1, after);
            && m !in l0.delayed && (forall x :: x in l1.delayed <==> x == m || x in l0.delayed) && m in l.delayed
            && AllDecode(Keys(Due(l.delayed, (t - 1.0).Floor)))
            && var l' := Drain(draw, l, (t - 1.0).Floor); m !in l'.delayed && Joined(l.main, l'.main, payload)
  {
    var second := (now + delay).Floor;
    var l0 := ApplyAll(limit, draw, START, before);
    var m := Member(second, Encode(draw(l0.drawn), 0, payload));
    EncodeHasForm(draw(l0.drawn), 0, payload);
    hide ApplyAll, ScheduleOp, Encode, Drain, Due, Keys, AllDecode, PayloadOf, CountOf, IdOf, HasForm, Joined,
         DrainsInOrder, PassesBy;
    ScheduledStays(limit, draw, before, payload, second, after, now + delay);
    var l := ApplyAll(limit, draw, ScheduleOp(draw, l0, payload, second), after);
    ApplyInTurn(limit, draw, START, before, [Schedule(payload, second)] + after);
    ScheduleFirst(limit, draw, l0, payload, second, after);
    DrainInRuns(limit, draw, before + ([Schedule(payload, second)] + after), (t - 1.0).Floor);
    RunRefines(limit, draw, START, before + ([Schedule(payload, second)] + after)) by { assert Valid(draw, START); }
    DrainedOut(draw, l, Drain(draw, l, (t - 1.0).Floor), (t - 1.0).Floor, m);
  }

  lemma {:induction false} ScheduledStays(limit: Limit, draw: Draw, before: seq<Op>, payload: Bytes, second: nat,
                                          after: seq<Op>, t: real)
    requires GoodDraw(draw) && PassesBy(after, t) && second == t.Floor
    ensures var l0 := ApplyAll(limit, draw, START, before);
            var m := Member(second, Encode(draw(l0.drawn), 0, payload));
            var l1 := ScheduleOp(draw, l0, payload, second);
            && m !in l0.delayed && (forall x :: x in l1.delayed <==> x == m || x in l0.delayed)
            && m in ApplyAll(limit, draw, l1, after).delayed
  {
    assert Valid(draw, START);
    RunRefines(limit, draw, START, before);
    var l0 := ApplyAll(limit, draw, START, before);
    assert DelayedOk(draw, l0.drawn, l0.delayed);
    ScheduledJoins(draw, l0.drawn, l0.delayed, payload, second);
    OpRefines(limit, draw, l0, Schedule(payload, second));
    hide Valid, ApplyAll, DelayedOk, Encode, ZAdd, PassesBy;
    var l1 := ScheduleOp(draw, l0, payload, second);
    assert Valid(draw, l1);
    Stays(limit, draw, l1, after, Member(second, Encode(draw(l0.drawn), 0, payload)), t);
  }

  lemma ScheduleFirst(limit: Limit, draw: Draw, l: Lists, payload: Bytes, second: nat, after: seq<Op>)
    ensures ApplyAll(limit, draw, l, [Schedule(payload, second)] + after)
         == ApplyAll(limit, draw, ScheduleOp(draw, l, payload, second), after)
  {
    assert ([Schedule(payload, second)] + after)[1..] == after;
  }

  /** Draining takes a due member out, and its payload ends up in main. */
  lemma DrainedOut(draw: Draw, l: Lists, l': Lists, second: nat, m: Member)
    requires DrainsInOrder(draw, l, l', second) && m in l.delayed && m.score <= second && WellFormedIds(draw)
    ensures m !in l'.delayed && Joined(l.main, l'.main, PayloadOf(m.key))
  {
    hide Due, PayloadOf, Joined, WellFormedIds, Reverse, Fresh;
    var due := Due(l.delayed, second);
    var i :| 0 <= i < |due| && due[i] == m;
    PoppedLater(draw, l.drawn, l.main, l'.main, PayloadSeq(Keys(due)), i);
  }

  lemma PoppedLater(draw: Draw, n: nat, main: seq<Bytes>, main': seq<Bytes>, bodies: seq<Bytes>, i: nat)
    requires WellFormedIds(draw) && i < |bodies| && Reverse(main') == Reverse(main) + Fresh(draw, n, bodies)
    ensures Joined(main, main', bodies[i])
  {
    hide Encode, PayloadOf, CountOf, IdOf, HasForm;
    EncodeHasForm(draw(n + i), 0, bodies[i]);
    assert Reverse(main')[|main| + i] == Fresh(draw, n, bodies)[i];
  }

  /**
   * One pass after any operations, from empty lists on: it gets through, and of the members up to `second` it takes
   * all, or the first 50 in order, to behind everything in main.
   */
  lemma {:induction false} PassInRuns(limit: Limit, draw: Draw, ops: seq<Op>, second: nat)
    requires GoodDraw(draw)
    ensures var l := ApplyAll(limit, draw, START, ops);
            var (l', passed) := MoveOp(draw, l, second);
            var due := |set m | m in l.delayed && m.score <= second|;
            passed && PassTakes(draw, l, l', if due < 50 then due else 50)
  {
    assert Valid(draw, START);
    RunRefines(limit, draw, START, ops);
    var l := ApplyAll(limit, draw, START, ops);
    assert DelayedOk(draw, l.drawn, l.delayed) && Sorted(l.delayed);
    hide ApplyAll, MoveOp, AllDecode, Keys, PassTakes, DelayedOk, Sorted;
    PassTakesDue(draw, l, second);
    var n := PassSize(l.delayed, second);
    DelayedDecode(draw, l.drawn, l.delayed, l.delayed[..n]);
  }
}

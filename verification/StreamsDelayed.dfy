/** The stream backend delivers a scheduled message never before its delay is over, and soon after. */
module StreamsDelayed {
  import opened Bytes
  import opened Codec
  import opened Ksuid
  import opened RedisLists
  import opened Retry
  import opened DelayedSet
  import opened DelayedKeys
  import P = StreamsProtocol
  import opened StreamsQueue
  import opened StreamsRefinement

  // ----- passes at one time -----

  /** All passes of the delayed mover at one time, until nothing is due. */
  ghost function Drain(s: Streams, second: nat): Streams
    requires AllDecode(Keys(Due(s.delayed, second)))
    decreases |s.delayed|
  {
    if Due(s.delayed, second) == [] then s
    else
      DrainStep(s.delayed, second);
      Drain(MoveOp(s, second).0, second)
  }

  /** Draining takes out all that is due, and adds it in order with count 0, as one unbatched move would. */
  lemma {:induction false} DrainIsOneMove(s: Streams, second: nat)
    requires AllDecode(Keys(Due(s.delayed, second)))
    ensures var due := Due(s.delayed, second);
            |due| <= |s.delayed| && Drain(s, second) == AddOp(s, PayloadSeq(Keys(due))).(delayed := s.delayed[|due|..])
    decreases |s.delayed|
  {
    hide Decode, Due, Keys, PayloadSeq, RemoveEach, FirstOf, AllDecode, AddOp;
    var due := Due(s.delayed, second);
    DrainStep(s.delayed, second);
    if due == [] {
      AddNothing(s);
    } else {
      var batch := FirstOf(due, MOVE_BATCH);
      var rest := due[|batch|..];
      var s1 := AddOp(s, PayloadSeq(Keys(batch))).(delayed := s.delayed[|batch|..]);
      DrainIsOneMove(s1, second);
      var left := s.delayed[|batch|..][|rest|..];
      assert left == s.delayed[|due|..] && s.delayed[|batch|..] == rest + left by { DueIsFirst(s1.delayed, second); }
      AddTwice(s, batch, rest, left);
    }
  }

  lemma DueIsFirst(z: seq<Member>, second: nat)
    ensures |Due(z, second)| <= |z| && z == Due(z, second) + z[|Due(z, second)|..]
  {
    DueDrop(z, second, |Due(z, second)|);
    assert Due(z, second)[..|Due(z, second)|] == Due(z, second);
  }

  lemma AddNothing(s: Streams)
    ensures AddOp(s, PayloadSeq(Keys([]))).(delayed := s.delayed[0..]) == s
  {
    assert s.stream + NewEntries(s.lastId, []) == s.stream && s.delayed[0..] == s.delayed;
  }

  lemma AddTwice(s: Streams, batch: seq<Member>, rest: seq<Member>, left: seq<Member>)
    ensures var s1 := AddOp(s, PayloadSeq(Keys(batch))).(delayed := rest + left);
            AddOp(s1, PayloadSeq(Keys(rest))).(delayed := left)
            == AddOp(s, PayloadSeq(Keys(batch + rest))).(delayed := left)
  {
    hide Keys, PayloadSeq, NewEntries;
    var (a, b) := (PayloadSeq(Keys(batch)), PayloadSeq(Keys(rest)));
    KeysConcat(batch, rest);
    PayloadSeqConcat(Keys(batch), Keys(rest));
    NewEntriesTwice(s.lastId, a, b);
    assert s.stream + NewEntries(s.lastId, a) + NewEntries(s.lastId + |a|, b) == s.stream + NewEntries(s.lastId, a + b);
  }

  /**
   * One pass after any operations, from an empty stream on: it gets through, and of the members up to `second` it
   * takes all, or the first 50 in order, to the end of the stream.
   */
  lemma {:induction false} PassInRuns(c: P.Config, draw: Draw, ops: seq<Op>, second: nat)
    requires GoodDraw(draw)
    ensures var s := ApplyAll(c, draw, START, ops);
            var (s', passed) := MoveOp(s, second);
            var due := |set m | m in s.delayed && m.score <= second|;
            passed && PassTakes(s, s', if due < 50 then due else 50)
  {
    assert Valid(draw, START);
    RunRefines(c, draw, START, ops);
    var s := ApplyAll(c, draw, START, ops);
    assert DelayedOk(draw, s.drawn, s.delayed) && Sorted(s.delayed);
    hide ApplyAll, MoveOp, AllDecode, Keys, PassTakes, DelayedOk, Sorted;
    PassTakesDue(s, second);
    var n := PassSize(s.delayed, second);
    DelayedDecode(draw, s.drawn, s.delayed, s.delayed[..n]);
  }

  // ----- what stays delayed -----

  /** No operation of `ops` is a pass of the mover later than `t`; a pass looks at the second before it. */
  ghost predicate PassesBy(ops: seq<Op>, t: real) {
    forall i | 0 <= i < |ops| && ops[i].Move? :: ops[i].second as real + 1.0 <= t
  }

  lemma StaysThroughOp(c: P.Config, draw: Draw, s: Streams, op: Op, m: Member)
    requires Valid(draw, s) && GoodDraw(draw) && m in s.delayed && (op.Move? ==> op.second < m.score)
    ensures m in Apply(c, draw, s, op).delayed
  {
    hide StreamOk, PendingOk, ReadOp, AckOp, NackOp, MoveOp, RedriveOp, SweepOp, ClaimReply, HasForm, Encode, IdOf,
         CountOf;
    match op
    case Schedule(p, second) => ScheduledJoins(draw, s.drawn, s.delayed, p, second);
    case Move(second) => StaysInPass(s, second, m);
    case _ => OthersKeepDelayed(c, draw, s, op);
  }

  lemma OthersKeepDelayed(c: P.Config, draw: Draw, s: Streams, op: Op)
    requires !op.Schedule? && !op.Move?
    ensures Apply(c, draw, s, op).delayed == s.delayed
  {
    hide ClaimReply, Visit, P.XDel, P.HandOut, P.BodyOf, P.Unread, NewEntries, AtLimit;
  }

  lemma StaysInPass(s: Streams, second: nat, m: Member)
    requires Sorted(s.delayed) && m in s.delayed && second < m.score
    ensures m in MoveOp(s, second).0.delayed
  {
    hide MoveOp, Sorted, PassSize;
    PassTakesDue(s, second);
    PassTakesTheFirst(s.delayed, second);
    LaterThanPass(s.delayed, PassSize(s.delayed, second), second, m);
  }

  lemma {:induction false} Stays(c: P.Config, draw: Draw, s: Streams, ops: seq<Op>, m: Member, t: real)
    requires Valid(draw, s) && GoodDraw(draw) && m in s.delayed && m.score == t.Floor && PassesBy(ops, t)
    ensures m in ApplyAll(c, draw, s, ops).delayed
    decreases |ops|
  {
    hide Valid, GoodDraw, Apply;
    if ops != [] {
      assert ops[0].Move? ==> ops[0].second < m.score;
      StaysThroughOp(c, draw, s, ops[0], m);
      OpRefines(c, draw, s, ops[0]);
      Stays(c, draw, Apply(c, draw, s, ops[0]), ops[1..], m, t);
    }
  }

  lemma {:induction false} ScheduledStays(c: P.Config, draw: Draw, before: seq<Op>, payload: Bytes, second: nat,
                                          after: seq<Op>, t: real)
    requires GoodDraw(draw) && PassesBy(after, t) && second == t.Floor
    ensures var s0 := ApplyAll(c, draw, START, before);
            var m := Member(second, Encode(draw(s0.drawn), 0, payload));
            var s1 := ScheduleOp(draw, s0, payload, second);
            && m !in s0.delayed && (forall x :: x in s1.delayed <==> x == m || x in s0.delayed)
            && m in ApplyAll(c, draw, s1, after).delayed && Valid(draw, ApplyAll(c, draw, s1, after))
  {
    assert Valid(draw, START);
    RunRefines(c, draw, START, before);
    var s0 := ApplyAll(c, draw, START, before);
    assert DelayedOk(draw, s0.drawn, s0.delayed);
    ScheduledJoins(draw, s0.drawn, s0.delayed, payload, second);
    OpRefines(c, draw, s0, Schedule(payload, second));
    hide Valid, ApplyAll, DelayedOk, Encode, ZAdd, PassesBy;
    var s1 := ScheduleOp(draw, s0, payload, second);
    assert Valid(draw, s1);
    Stays(c, draw, s1, after, Member(second, Encode(draw(s0.drawn), 0, payload)), t);
    RunRefines(c, draw, s1, after);
  }

  // ----- on time -----

  /** Behind everything in `stream` there is an entry for a message with payload `p` and count 0. */
  ghost predicate Joined(stream: seq<P.Entry>, stream': seq<P.Entry>, p: Bytes) {
    exists i :: |stream| <= i < |stream'| && stream'[i].payload == p && stream'[i].count == 0
  }

  /**
   * A message scheduled at `now` with delay `delay`, after any operations `before`: it is the one new member, its
   * score the second it is due in. It stays delayed through any further operations with passes up to the time it is
   * due, and once passes are repeated at any time `t` a second later or more, it has left for the stream.
   */
  lemma {:induction false} ScheduledOnTime(c: P.Config, draw: Draw, before: seq<Op>, payload: Bytes, now: real,
                                           delay: real, after: seq<Op>, t: real)
    requires GoodDraw(draw) && now + delay >= 0.0 && PassesBy(after, now + delay) && t >= now + delay + 1.0
    ensures var s0 := ApplyAll(c, draw, START, before);
            var s1 := ScheduleOp(draw, s0, payload, UnixTimestamp(now + delay).value);
            var m := Member((now + delay).Floor, Encode(draw(s0.drawn), 0, payload));
            var s := ApplyAll(c, draw, s1, after);
            && m !in s0.delayed && (forall x :: x in s1.delayed <==> x == m || x in s0.delayed) && m in s.delayed
            && AllDecode(Keys(Due(s.delayed, (t - 1.0).Floor)))
            && var s' := Drain(s, (t - 1.0).Floor); m !in s'.delayed && Joined(s.stream, s'.stream, payload)
  {
    var second := (now + delay).Floor;
    var s0 := ApplyAll(c, draw, START, before);
    var m := Member(second, Encode(draw(s0.drawn), 0, payload));
    EncodeHasForm(draw(s0.drawn), 0, payload);
    hide ApplyAll, ScheduleOp, Encode, Drain, Due, Keys, AllDecode, PayloadOf, CountOf, IdOf, HasForm, Joined, Valid,
         PassesBy;
    ScheduledStays(c, draw, before, payload, second, after, now + delay);
    DrainedOut(draw, ApplyAll(c, draw, ScheduleOp(draw, s0, payload, second), after), (t - 1.0).Floor, m);
  }

  /** Draining takes a due member out, and its payload ends up in the stream. */
  lemma DrainedOut(draw: Draw, s: Streams, second: nat, m: Member)
    requires Valid(draw, s) && m in s.delayed && m.score <= second
    ensures AllDecode(Keys(Due(s.delayed, second)))
    ensures var s' := Drain(s, second); m !in s'.delayed && Joined(s.stream, s'.stream, PayloadOf(m.key))
  {
    assert DelayedOk(draw, s.drawn, s.delayed) && Sorted(s.delayed);
    DueIsThePrefix(s.delayed, second);
    DelayedDecode(draw, s.drawn, s.delayed, Due(s.delayed, second));
    hide Valid, Due, PayloadOf, DelayedOk, Sorted, AllDecode, Drain, Joined;
    var due := Due(s.delayed, second);
    DrainIsOneMove(s, second);
    var i :| 0 <= i < |due| && due[i] == m;
    DueSplits(s.delayed, second);
    JoinedBy(s, PayloadSeq(Keys(due)), i);
  }

  lemma JoinedBy(s: Streams, bodies: seq<Bytes>, i: nat)
    requires i < |bodies|
    ensures Joined(s.stream, AddOp(s, bodies).stream, bodies[i])
  {
    assert AddOp(s, bodies).stream[|s.stream| + i] == NewEntries(s.lastId, bodies)[i];
  }
}

/**
 * The two views of the list backend agree: an operation that nobody interrupts, command by command in the protocol,
 * has the effect of the sequential one.
 */
module FallbackAlone {
  import opened Bytes
  import opened Codec
  import opened Ksuid
  import opened RedisLists
  import opened Retry
  import opened DelayedSet
  import opened DelayedKeys
  import P = FallbackProtocol
  import Q = FallbackQueue

  /** The lists of a protocol state, but for the delayed messages, which only the mover needs. */
  function ListsOf(s: P.State, drawn: nat): Q.Lists {
    Q.Lists(s.main, s.processing, [], s.dlq, drawn)
  }

  function Steps(dlq: Limit, s: P.State, es: seq<P.Event>): P.State
    decreases |es|
  {
    if es == [] then s else Steps(dlq, P.Step(dlq, s, es[0]), es[1..])
  }

  /** From the `n`-th on, the identifiers to come are new to `s`. */
  ghost predicate Ahead(draw: Draw, n: nat, s: P.State) {
    GoodDraw(draw) && forall i | i >= n :: draw(i) !in s.used
  }

  lemma StepsCons(dlq: Limit, s: P.State, e: P.Event, es: seq<P.Event>)
    ensures Steps(dlq, s, [e] + es) == Steps(dlq, P.Step(dlq, s, e), es)
  {
    assert ([e] + es)[1..] == es;
  }

  /** The visit of one key, and the removal if it was copied. */
  lemma VisitAlone(dlq: Limit, draw: Draw, n: nat, s: P.State, w: nat, cutoff: Bytes, batch: seq<Bytes>)
    requires Ahead(draw, n, s) && w < |s.procs| && batch != [] && s.procs[w] == P.Sweeping(cutoff, batch)
    requires Expired(batch[0], cutoff) && Decode(batch[0]).Ok?
    ensures var s1 := P.Step(dlq, s, P.By(w, P.SweepVisit(draw(n))));
            var s2 := P.Step(dlq, s1, P.By(w, P.SweepRemove));
            var l := Q.SweepOne(dlq, draw, ListsOf(s, n), batch[0]);
            && ListsOf(s2, l.drawn) == l && Ahead(draw, l.drawn, s2)
            && |s2.procs| == |s.procs| && s2.procs[w] == P.SweepOf(cutoff, batch[1..])
  {
    hide Decode, Encode, AtMost, RemoveFirst, AtLimit, P.SweepOf, P.Step;
    var s1 := P.Step(dlq, s, P.By(w, P.SweepVisit(draw(n))));
    CopiedAlone(dlq, draw, n, s, w, cutoff, batch);
    RemovedAlone(dlq, s1, w, cutoff, batch);
  }

  lemma CopiedAlone(dlq: Limit, draw: Draw, n: nat, s: P.State, w: nat, cutoff: Bytes, batch: seq<Bytes>)
    requires Ahead(draw, n, s) && w < |s.procs| && batch != [] && s.procs[w] == P.Sweeping(cutoff, batch)
    requires Expired(batch[0], cutoff) && Decode(batch[0]).Ok?
    ensures var s1 := P.Step(dlq, s, P.By(w, P.SweepVisit(draw(n))));
            var l := Q.SweepOne(dlq, draw, ListsOf(s, n), batch[0]);
            && s1.procs == s.procs[w := P.SweepRemoving(cutoff, batch)] && s1.processing == s.processing
            && s1.main == l.main && s1.dlq == l.dlq && Ahead(draw, l.drawn, s1)
  {
    hide Decode, Encode, AtMost, RemoveFirst, AtLimit;
    assert P.Fresh(s, draw(n));
  }

  lemma RemovedAlone(dlq: Limit, s: P.State, w: nat, cutoff: Bytes, batch: seq<Bytes>)
    requires w < |s.procs| && batch != [] && s.procs[w] == P.SweepRemoving(cutoff, batch)
    ensures var s' := P.Step(dlq, s, P.By(w, P.SweepRemove));
            && s'.procs == s.procs[w := P.SweepOf(cutoff, batch[1..])] && s'.main == s.main && s'.dlq == s.dlq
            && s'.processing == RemoveFirst(s.processing, batch[0]) && s'.used == s.used
  {
    hide RemoveFirst, MissedOne, P.SweepOf;
  }

  lemma SkippedAlone(dlq: Limit, draw: Draw, n: nat, s: P.State, w: nat, cutoff: Bytes, batch: seq<Bytes>)
    requires Ahead(draw, n, s) && w < |s.procs| && batch != [] && s.procs[w] == P.Sweeping(cutoff, batch)
    requires !Expired(batch[0], cutoff)
    ensures var s1 := P.Step(dlq, s, P.By(w, P.SweepVisit(draw(n))));
            && ListsOf(s1, n) == ListsOf(s, n) && Ahead(draw, n, s1)
            && |s1.procs| == |s.procs| && s1.procs[w] == P.SweepOf(cutoff, batch[1..])
  {
    hide Decode, Encode, AtMost;
  }

  lemma AbandonedAlone(dlq: Limit, draw: Draw, n: nat, s: P.State, w: nat, cutoff: Bytes, batch: seq<Bytes>)
    requires w < |s.procs| && batch != [] && s.procs[w] == P.Sweeping(cutoff, batch)
    requires Expired(batch[0], cutoff) && !Decode(batch[0]).Ok?
    ensures var s1 := P.Step(dlq, s, P.By(w, P.SweepVisit(draw(n))));
            ListsOf(s1, n) == ListsOf(s, n) && |s1.procs| == |s.procs| && s1.procs[w] == P.Idle
  {
    hide Decode, Encode, AtMost;
  }

  lemma NoSteps(dlq: Limit, s: P.State)
    ensures Steps(dlq, s, []) == s
  {
  }

  lemma {:induction false} BatchAlone(dlq: Limit, draw: Draw, n: nat, s: P.State, w: nat, cutoff: Bytes,
                                      batch: seq<Bytes>)
      returns (es: seq<P.Event>)
    requires Ahead(draw, n, s) && w < |s.procs| && s.procs[w] == P.SweepOf(cutoff, batch)
    ensures var l' := Q.SweepBatch(dlq, draw, ListsOf(s, n), cutoff, batch).0;
            var s' := Steps(dlq, s, es);
            && ListsOf(s', l'.drawn) == l' && |s'.procs| == |s.procs| && s'.procs[w] == P.Idle
            && forall e | e in es :: e.By? && e.w == w
    decreases |batch|
  {
    hide Decode, Ahead, RemoveFirst, Q.SweepOne, Steps;
    if batch == [] {
      es := [];
      NoSteps(dlq, s);
    } else {
      var visit := P.By(w, P.SweepVisit(draw(n)));
      var s1 := P.Step(dlq, s, visit);
      if !Expired(batch[0], cutoff) {
        SkippedAlone(dlq, draw, n, s, w, cutoff, batch);
        es := BatchAlone(dlq, draw, n, s1, w, cutoff, batch[1..]);
        StepsCons(dlq, s, visit, es);
        es := [visit] + es;
      } else if !Decode(batch[0]).Ok? {
        AbandonedAlone(dlq, draw, n, s, w, cutoff, batch);
        StepsCons(dlq, s, visit, []);
        NoSteps(dlq, s1);
        es := [visit] + [];
      } else {
        var remove := P.By(w, P.SweepRemove);
        VisitAlone(dlq, draw, n, s, w, cutoff, batch);
        var s2 := P.Step(dlq, s1, remove);
        var l := Q.SweepOne(dlq, draw, ListsOf(s, n), batch[0]);
        es := BatchAlone(dlq, draw, l.drawn, s2, w, cutoff, batch[1..]);
        StepsCons(dlq, s1, remove, es);
        StepsCons(dlq, s, visit, [remove] + es);
        es := [visit] + ([remove] + es);
      }
    }
  }

  /** An idle process can sweep by itself, and then changes the lists as the sequential sweep does. */
  lemma {:induction false} SweepAlone(dlq: Limit, draw: Draw, n: nat, s: P.State, w: nat, cutoff: Bytes)
      returns (es: seq<P.Event>)
    requires Ahead(draw, n, s) && w < |s.procs| && s.procs[w] == P.Idle
    ensures var l' := Q.SweepOp(dlq, draw, ListsOf(s, n), cutoff).0;
            var s' := Steps(dlq, s, es);
            && ListsOf(s', l'.drawn) == l' && |s'.procs| == |s.procs| && s'.procs[w] == P.Idle
            && forall e | e in es :: e.By? && e.w == w
  {
    hide Decode, AtMost, Q.SweepBatch, Steps;
    NoSteps(dlq, s);
    es := [];
    if s.processing != [] && Expired(s.processing[|s.processing| - 1], cutoff) {
      var (peek, read) := (P.By(w, P.SweepPeek(cutoff)), P.By(w, P.SweepRead));
      var s1 := P.Step(dlq, s, peek);
      var s2 := P.Step(dlq, s1, read);
      es := BatchAlone(dlq, draw, n, s2, w, cutoff, LastOf(s.processing, SWEEP_BATCH));
      StepsCons(dlq, s1, read, es);
      StepsCons(dlq, s, peek, [read] + es);
      es := [peek] + ([read] + es);
    }
  }

  /**
   * What the reading commands go on with: a sweep only if the oldest leased key is expired, and then with the last 50
   * keys there are by now; a redrive with the first 51 dead letters.
   */
  lemma ReadsAlone(dlq: Limit, s: P.State, w: nat, cutoff: Bytes)
    requires w < |s.procs|
    ensures var (p, last) := (s.processing, |s.processing| - 1);
            P.Step(dlq, s, P.By(w, P.SweepPeek(cutoff)))
            == if s.procs[w] == P.Idle && p != [] && Expired(p[last], cutoff) then P.Put(s, w, P.SweepPeeked(cutoff))
               else s
    ensures s.procs[w] == P.SweepPeeked(cutoff) ==>
              var n := if |s.processing| <= 50 then 0 else |s.processing| - 50;
              P.Step(dlq, s, P.By(w, P.SweepRead)) == P.Put(s, w, P.SweepOf(cutoff, s.processing[n..]))
    ensures s.procs[w] == P.Idle && s.dlq != [] && dlq.Some? ==>
              var n := if |s.dlq| <= 51 then |s.dlq| else 51;
              P.Step(dlq, s, P.By(w, P.RedriveRead)) == P.Put(s, w, P.Redriving(s.dlq[..n]))
  {
    hide AtMost, P.SweepOf;
    assert s.dlq[..|s.dlq|] == s.dlq && s.processing[0..] == s.processing;
  }

  // ----- sending and receiving -----

  /** A send and a receive are single commands. */
  lemma SendAndReceiveAlone(dlq: Limit, draw: Draw, n: nat, s: P.State, payload: Bytes, w: nat)
    requires Ahead(draw, n, s) && w < |s.procs| && s.procs[w] == P.Idle
    ensures ListsOf(P.Step(dlq, s, P.Send(draw(n), payload)), n + 1) == Q.SendOp(draw, ListsOf(s, n), payload)
    ensures var s' := P.Step(dlq, s, P.By(w, P.Receive));
            && ListsOf(s', n) == Q.ReceiveOp(ListsOf(s, n)) && s'.procs == s.procs[w := s'.procs[w]]
            && s'.procs[w] == if s.main == [] then P.Idle
                              else match Decode(s.main[|s.main| - 1])
                                   case Ok(_, receives) => P.Delivered(s.main[|s.main| - 1], receives, false)
                                   case _ => P.Idle
  {
    hide Decode, Encode;
    assert P.Fresh(s, draw(n));
  }

  // ----- settling -----

  /** `ack` of a delivery. */
  lemma AckAlone(dlq: Limit, s: P.State, n: nat, w: nat, key: Bytes, receives: nat)
    requires w < |s.procs| && s.procs[w] == P.Delivered(key, receives, false)
    ensures ListsOf(P.Step(dlq, s, P.By(w, P.Ack(false))), n) == Q.AckOp(ListsOf(s, n), key)
    ensures P.Step(dlq, s, P.By(w, P.Ack(false))).procs[w] == P.Delivered(key, receives, true)
  {
    hide PayloadOf;
  }

  /** `nack` of a delivery: at the limit a push and a removal. */
  lemma NackAlone(dlq: Limit, s: P.State, n: nat, w: nat, key: Bytes, receives: nat) returns (es: seq<P.Event>)
    requires w < |s.procs| && s.procs[w] == P.Delivered(key, receives, false)
    ensures var s' := Steps(dlq, s, es);
            && ListsOf(s', n) == Q.NackOp(dlq, ListsOf(s, n), key, receives)
            && |s'.procs| == |s.procs| && s'.procs[w] == P.Delivered(key, receives, true)
            && forall e | e in es :: e.By? && e.w == w
  {
    hide PayloadOf, Decode, MissedOne, Steps;
    var s1 := P.Step(dlq, s, P.By(w, P.Nack));
    if AtLimit(dlq, receives) {
      var remove := P.By(w, P.NackRemove(false));
      StepsCons(dlq, s1, remove, []);
      NoSteps(dlq, P.Step(dlq, s1, remove));
      StepsCons(dlq, s, P.By(w, P.Nack), [remove] + []);
      es := [P.By(w, P.Nack)] + ([remove] + []);
    } else {
      StepsCons(dlq, s, P.By(w, P.Nack), []);
      NoSteps(dlq, s1);
      es := [P.By(w, P.Nack)] + [];
    }
  }

  // ----- batches of new keys -----

  /** The identifiers from the `n`-th on. */
  function Next(draw: Draw, n: nat, count: nat): (ids: seq<Bytes>)
    ensures |ids| == count && forall i | 0 <= i < count :: ids[i] == draw(n + i)
  {
    seq(count, i requires 0 <= i < count => draw(n + i))
  }

  lemma {:induction false} NextKeys(draw: Draw, n: nat, bodies: seq<Bytes>)
    ensures FreshKeys(Next(draw, n, |bodies|), bodies) == Q.Fresh(draw, n, bodies)
  {
  }

  lemma NextAreFresh(draw: Draw, n: nat, s: P.State, count: nat)
    requires Ahead(draw, n, s)
    ensures P.FreshBatch(s, Next(draw, n, count))
  {
    var ids := Next(draw, n, count);
    forall i, j | 0 <= i < j < |ids| ensures ids[i] != ids[j] {
      assert draw(n + i) != draw(n + j);
    }
    forall i | 0 <= i < |ids| ensures P.Fresh(s, ids[i]) {
      assert draw(n + i) !in s.used;
    }
  }

  lemma AheadAfter(draw: Draw, n: nat, s: P.State, s': P.State, count: nat)
    requires Ahead(draw, n, s) && s'.used == s.used + set id | id in Next(draw, n, count)
    ensures Ahead(draw, n + count, s')
  {
    forall i | i >= n + count ensures draw(i) !in s'.used {
      forall j | 0 <= j < count ensures Next(draw, n, count)[j] != draw(i) {
        assert n + j != i;
      }
    }
  }

  lemma AheadSame(draw: Draw, n: nat, s: P.State, s': P.State)
    requires Ahead(draw, n, s) && s'.used == s.used
    ensures Ahead(draw, n, s')
  {
  }

  // ----- the mover -----

  /** A pass of the mover over the sorted set `z` that the protocol keeps as its keys. */
  lemma MoveAlone(dlq: Limit, draw: Draw, n: nat, s: P.State, z: seq<Member>, w: nat, second: nat)
      returns (es: seq<P.Event>)
    requires Ahead(draw, n, s) && w < |s.procs| && s.procs[w] == P.Idle && s.delayed == Keys(z) && NoDup(Keys(z))
    ensures var s' := Steps(dlq, s, es);
            var l' := Q.MoveOp(draw, ListsOf(s, n).(delayed := z), second).0;
            && ListsOf(s', l'.drawn) == l'.(delayed := []) && s'.delayed == Keys(l'.delayed)
            && |s'.procs| == |s.procs| && s'.procs[w] == P.Idle && forall e | e in es :: e.By? && e.w == w
  {
    var batch := FirstOf(Due(z, second), MOVE_BATCH);
    KeysOfThePass(z, second);
    assert batch != [] ==> P.MoveReply(s, Keys(batch));
    NoSteps(dlq, s);
    hide Due, Keys, PayloadSeq, Steps, RemoveEach, PushHeads, Q.Fresh, Ahead, FirstOf, AllDecode, P.MoveReply, NoDup;
    if batch == [] {
      es := [];
      EmptyMove(draw, ListsOf(s, n).(delayed := z), second);
    } else if !AllDecode(Keys(batch)) {
      es := [];
    } else {
      es := MoveCommands(dlq, draw, n, s, w, Keys(batch));
    }
  }

  lemma EmptyMove(draw: Draw, l: Q.Lists, second: nat)
    requires FirstOf(Due(l.delayed, second), MOVE_BATCH) == []
    ensures Q.MoveOp(draw, l, second).0 == l
  {
  }

  lemma MoveReads(dlq: Limit, s: P.State, w: nat, batch: seq<Bytes>)
    requires w < |s.procs| && s.procs[w] == P.Idle && P.MoveReply(s, batch) && AllDecode(batch)
    ensures P.Step(dlq, s, P.By(w, P.MoveRead(batch))) == P.Put(s, w, P.Moving(batch))
  {
    hide P.MoveReply, AllDecode;
  }

  lemma MovePushes(dlq: Limit, s: P.State, w: nat, batch: seq<Bytes>, ids: seq<Bytes>)
    requires w < |s.procs| && s.procs[w] == P.Moving(batch) && P.FreshBatch(s, ids) && |ids| == |batch|
    ensures P.Step(dlq, s, P.By(w, P.MovePush(ids)))
         == P.Put(s.(main := PushHeads(s.main, FreshKeys(ids, PayloadSeq(batch))), used := s.used + set id | id in ids),
                  w, P.MoveRemoving(batch))
  {
    hide P.FreshBatch, PushHeads, FreshKeys, PayloadSeq;
  }

  lemma MoveRemoves(dlq: Limit, s: P.State, w: nat, batch: seq<Bytes>)
    requires w < |s.procs| && s.procs[w] == P.MoveRemoving(batch)
    ensures var s' := P.Step(dlq, s, P.By(w, P.MoveRemove));
            && s'.delayed == RemoveEach(s.delayed, batch) && s'.procs == s.procs[w := P.Idle]
            && s'.main == s.main && s'.processing == s.processing && s'.dlq == s.dlq
  {
    hide RemoveEach, Missed;
  }

  lemma SameUse(s: P.State, s': P.State, ids: seq<Bytes>)
    requires P.FreshBatch(s, ids) && s'.used == s.used
    ensures P.FreshBatch(s', ids)
  {
    forall i | 0 <= i < |ids| ensures P.Fresh(s', ids[i]) {
      assert P.Fresh(s, ids[i]);
    }
  }

  lemma MoveCommands(dlq: Limit, draw: Draw, n: nat, s: P.State, w: nat, batch: seq<Bytes>) returns (es: seq<P.Event>)
    requires Ahead(draw, n, s) && w < |s.procs| && s.procs[w] == P.Idle && P.MoveReply(s, batch) && AllDecode(batch)
    ensures var s' := Steps(dlq, s, es);
            && s'.main == PushHeads(s.main, Q.Fresh(draw, n, PayloadSeq(batch))) && s'.processing == s.processing
            && s'.dlq == s.dlq && s'.delayed == RemoveEach(s.delayed, batch)
            && |s'.procs| == |s.procs| && s'.procs[w] == P.Idle && forall e | e in es :: e.By? && e.w == w
  {
    var ids := Next(draw, n, |batch|);
    NextAreFresh(draw, n, s, |batch|);
    NextKeys(draw, n, PayloadSeq(batch));
    hide Steps, P.Step, PayloadSeq, AllDecode, PushHeads, Q.Fresh, FreshKeys, Next, RemoveEach, P.FreshBatch,
         P.MoveReply;
    var (read, push, remove) := (P.By(w, P.MoveRead(batch)), P.By(w, P.MovePush(ids)), P.By(w, P.MoveRemove));
    var s1 := P.Step(dlq, s, read);
    MoveReads(dlq, s, w, batch);
    SameUse(s, s1, ids);
    var s2 := P.Step(dlq, s1, push);
    MovePushes(dlq, s1, w, batch, ids);
    MoveRemoves(dlq, s2, w, batch);
    NoSteps(dlq, P.Step(dlq, s2, remove));
    StepsCons(dlq, s2, remove, []);
    StepsCons(dlq, s1, push, [remove] + []);
    StepsCons(dlq, s, read, [push] + ([remove] + []));
    es := [read] + ([push] + ([remove] + []));
  }

  // ----- the redrive -----

  /** The removals of a round, and the turn to the next one. */
  lemma {:induction false} RemovalsAlone(dlq: Limit, s: P.State, w: nat, bodies: seq<Bytes>, rest: seq<Bytes>)
      returns (es: seq<P.Event>)
    requires w < |s.procs| && s.procs[w] == P.RedriveRemoving(bodies) && s.dlq == bodies + rest
    ensures var s' := Steps(dlq, s, es);
            && s'.dlq == rest && s'.main == s.main && s'.processing == s.processing && s'.used == s.used
            && |s'.procs| == |s.procs| && s'.procs[w] == P.Idle && forall e | e in es :: e.By? && e.w == w
    decreases |bodies|
  {
    hide Steps;
    var remove := P.By(w, P.RedriveRemove);
    var s1 := P.Step(dlq, s, remove);
    if bodies == [] {
      NoSteps(dlq, s1);
      StepsCons(dlq, s, remove, []);
      es := [remove] + [];
    } else {
      assert (bodies + rest)[1..] == bodies[1..] + rest;
      var more := RemovalsAlone(dlq, s1, w, bodies[1..], rest);
      StepsCons(dlq, s, remove, more);
      es := [remove] + more;
    }
  }

  lemma {:induction false} StepsConcat(dlq: Limit, s: P.State, a: seq<P.Event>, b: seq<P.Event>)
    ensures Steps(dlq, s, a + b) == Steps(dlq, Steps(dlq, s, a), b)
    decreases |a|
  {
    if a == [] {
      assert a + b == b;
    } else {
      assert (a + b)[1..] == a[1..] + b;
      StepsConcat(dlq, P.Step(dlq, s, a[0]), a[1..], b);
    }
  }

  lemma RedriveReads(dlq: Limit, s: P.State, w: nat)
    requires dlq.Some? && w < |s.procs| && s.procs[w] == P.Idle && s.dlq != []
    ensures P.Step(dlq, s, P.By(w, P.RedriveRead)) == P.Put(s, w, P.Redriving(FirstOf(s.dlq, REDRIVE_BATCH)))
  {
  }

  lemma RedrivePushes(dlq: Limit, s: P.State, w: nat, bodies: seq<Bytes>, ids: seq<Bytes>)
    requires w < |s.procs| && s.procs[w] == P.Redriving(bodies) && P.FreshBatch(s, ids) && |ids| == |bodies|
    ensures P.Step(dlq, s, P.By(w, P.RedrivePush(ids)))
         == P.Put(s.(main := PushHeads(s.main, FreshKeys(ids, bodies)), used := s.used + set id | id in ids),
                  w, P.RedriveRemoving(bodies))
  {
    hide P.FreshBatch, PushHeads, FreshKeys;
  }

  /** One round: read, push, and remove what was read. */
  lemma RoundAlone(dlq: Limit, draw: Draw, n: nat, s: P.State, w: nat) returns (es: seq<P.Event>)
    requires dlq.Some? && Ahead(draw, n, s) && w < |s.procs| && s.procs[w] == P.Idle && s.dlq != []
    ensures var (s', batch) := (Steps(dlq, s, es), FirstOf(s.dlq, REDRIVE_BATCH));
            && s.dlq == batch + s'.dlq && s'.main == PushHeads(s.main, Q.Fresh(draw, n, batch))
            && s'.processing == s.processing && Ahead(draw, n + |batch|, s')
            && |s'.procs| == |s.procs| && s'.procs[w] == P.Idle && forall e | e in es :: e.By? && e.w == w
  {
    hide Steps, P.Step, PushHeads, Q.Fresh, FreshKeys, P.FreshBatch, Ahead, FirstOf;
    var batch := FirstOf(s.dlq, REDRIVE_BATCH);
    var rest := RestOf(s.dlq, REDRIVE_BATCH);
    var ids := Next(draw, n, |batch|);
    var (read, push) := (P.By(w, P.RedriveRead), P.By(w, P.RedrivePush(ids)));
    NextAreFresh(draw, n, s, |batch|);
    NextKeys(draw, n, batch);
    var s1 := P.Step(dlq, s, read);
    RedriveReads(dlq, s, w);
    SameUse(s, s1, ids);
    var s2 := P.Step(dlq, s1, push);
    RedrivePushes(dlq, s1, w, batch, ids);
    AheadAfter(draw, n, s, s2, |batch|);
    hide Next;
    var removals := RemovalsAlone(dlq, s2, w, batch, rest);
    AheadSame(draw, n + |batch|, s2, Steps(dlq, s2, removals));
    StepsCons(dlq, s1, push, removals);
    StepsCons(dlq, s, read, [push] + removals);
    es := [read] + ([push] + removals);
  }

  /** A redrive that nobody interrupts, through all its rounds. */
  lemma {:induction false} RedriveAlone(dlq: Limit, draw: Draw, n: nat, s: P.State, w: nat) returns (es: seq<P.Event>)
    requires dlq.Some? && Ahead(draw, n, s) && w < |s.procs| && s.procs[w] == P.Idle
    ensures var (s', l') := (Steps(dlq, s, es), Q.RedriveOp(draw, ListsOf(s, n)));
            && ListsOf(s', l'.drawn) == l' && |s'.procs| == |s.procs| && s'.procs[w] == P.Idle
            && forall e | e in es :: e.By? && e.w == w
    decreases |s.dlq|
  {
    hide Steps, Ahead, PushHeads, Q.Fresh, P.Step;
    if s.dlq == [] {
      es := [];
      NoSteps(dlq, s);
      Q.RedriveNothing(draw, ListsOf(s, n));
    } else {
      var batch := FirstOf(s.dlq, REDRIVE_BATCH);
      var round := RoundAlone(dlq, draw, n, s, w);
      var s1 := Steps(dlq, s, round);
      var more := RedriveAlone(dlq, draw, n + |batch|, s1, w);
      StepsConcat(dlq, s, round, more);
      Q.RedriveBatches(draw, ListsOf(s, n), ListsOf(s1, n + |batch|), batch, s1.dlq);
      es := round + more;
    }
  }
}

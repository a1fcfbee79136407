/** Run one operation at a time, the list backend never holds a key twice, so every sweep has its exact effect. */
module FallbackKeys {
  import opened Bytes
  import opened Codec
  import opened Ksuid
  import opened RedisLists
  import opened Retry
  import opened DelayedSet
  import opened DelayedKeys
  import opened FallbackQueue
  import opened FallbackRefinement

  /** Keys in main and processing were drawn before, and none is there twice. */
  ghost predicate Distinct(draw: Draw, n: nat, main: seq<Bytes>, processing: seq<Bytes>) {
    && (forall k | k in main || k in processing :: Drawn(draw, n, k))
    && (forall k :: multiset(main)[k] + multiset(processing)[k] <= 1)
  }

  /** A key with the next identifier is new. */
  lemma NewKey(draw: Draw, n: nat, main: seq<Bytes>, processing: seq<Bytes>, key: Bytes)
    requires GoodDraw(draw) && Distinct(draw, n, main, processing) && IdOf(key) == draw(n)
    ensures key !in main && key !in processing
    ensures Distinct(draw, n + 1, [key] + main, processing) && Distinct(draw, n + 1, main + [key], processing)
  {
    hide IdOf;
    assert !Drawn(draw, n, key);
    forall k | Drawn(draw, n, k) ensures Drawn(draw, n + 1, k) {
      var i :| 0 <= i < n && IdOf(k) == draw(i);
    }
    assert Drawn(draw, n + 1, key);
  }

  lemma {:induction false} PushedDistinct(draw: Draw, n: nat, main: seq<Bytes>, processing: seq<Bytes>,
                                          bodies: seq<Bytes>)
    requires GoodDraw(draw) && Distinct(draw, n, main, processing)
    ensures Distinct(draw, n + |bodies|, PushHeads(main, Fresh(draw, n, bodies)), processing)
    decreases |bodies|
  {
    hide Distinct, Encode, IdOf, Fresh, CountOf, PayloadOf, HasForm;
    if bodies == [] {
      assert Fresh(draw, n, []) == [];
    } else {
      var key := Encode(draw(n), 0, bodies[0]);
      EncodeHasForm(draw(n), 0, bodies[0]);
      FreshCons(draw, n, bodies);
      NewKey(draw, n, main, processing, key);
      PushedDistinct(draw, n + 1, [key] + main, processing, bodies[1..]);
      var rest := Fresh(draw, n + 1, bodies[1..]);
      assert ([key] + rest)[1..] == rest;
    }
  }

  lemma LaterDistinct(draw: Draw, n: nat, m: nat, main: seq<Bytes>, processing: seq<Bytes>)
    requires n <= m && Distinct(draw, n, main, processing)
    ensures Distinct(draw, m, main, processing)
  {
    hide IdOf;
    forall k | k in main || k in processing ensures Drawn(draw, m, k) {
      assert Drawn(draw, n, k);
    }
  }

  lemma RemovedDistinct(draw: Draw, n: nat, main: seq<Bytes>, processing: seq<Bytes>, key: Bytes)
    requires Distinct(draw, n, main, processing)
    ensures Distinct(draw, n, main, RemoveFirst(processing, key))
  {
    hide Drawn;
    RemoveFirstBag(processing, key);
    forall k | k in RemoveFirst(processing, key) ensures k in processing { RemoveFirstMember(processing, key, k); }
  }

  lemma ReceivedDistinct(draw: Draw, l: Lists)
    requires l.main != [] && Distinct(draw, l.drawn, l.main, l.processing)
    ensures Distinct(draw, l.drawn, ReceiveOp(l).main, ReceiveOp(l).processing)
  {
    hide Drawn;
    var key := l.main[|l.main| - 1];
    assert l.main == l.main[..|l.main| - 1] + [key];
  }

  lemma SweptDistinct(limit: Limit, draw: Draw, l: Lists, key: Bytes)
    requires GoodDraw(draw) && Distinct(draw, l.drawn, l.main, l.processing) && Decode(key).Ok?
    ensures var l' := SweepOne(limit, draw, l, key); Distinct(draw, l'.drawn, l'.main, l'.processing)
  {
    var Ok(payload, receives) := Decode(key);
    assert receives <= USIZE_MAX && ValidId(draw(l.drawn));
    SweptOrCopied(limit, draw, l, key);
    hide Distinct, Decode, Encode, RemoveFirst, CountOf, PayloadOf, HasForm, IdOf, ValidId, SweepOne, GoodDraw;
    RemovedDistinct(draw, l.drawn, l.main, l.processing, key);
    EncodeHasForm(draw(l.drawn), receives, payload);
    NewKey(draw, l.drawn, l.main, RemoveFirst(l.processing, key), Encode(draw(l.drawn), receives, payload));
  }

  lemma SweptOrCopied(limit: Limit, draw: Draw, l: Lists, key: Bytes)
    requires Decode(key).Ok?
    ensures var l' := SweepOne(limit, draw, l, key);
            && l'.processing == RemoveFirst(l.processing, key)
            && ((l'.main == l.main && l'.drawn == l.drawn)
                || (l'.drawn == l.drawn + 1
                    && l'.main == l.main + [Encode(draw(l.drawn), Decode(key).receives, Decode(key).payload)]))
  {
    hide Decode, Encode, RemoveFirst, AtLimit;
  }

  lemma {:induction false} BatchDistinct(limit: Limit, draw: Draw, l: Lists, cutoff: Bytes, batch: seq<Bytes>)
    requires GoodDraw(draw) && Distinct(draw, l.drawn, l.main, l.processing)
    ensures var l' := SweepBatch(limit, draw, l, cutoff, batch).0; Distinct(draw, l'.drawn, l'.main, l'.processing)
    decreases |batch|
  {
    hide Distinct, Decode, Expired, SweepOne, GoodDraw;
    if batch != [] {
      if !Expired(batch[0], cutoff) {
        BatchDistinct(limit, draw, l, cutoff, batch[1..]);
      } else if Decode(batch[0]).Ok? {
        SweptDistinct(limit, draw, l, batch[0]);
        BatchDistinct(limit, draw, SweepOne(limit, draw, l, batch[0]), cutoff, batch[1..]);
      }
    }
  }

  lemma OpDistinct(limit: Limit, draw: Draw, l: Lists, op: Op)
    requires GoodDraw(draw) && Distinct(draw, l.drawn, l.main, l.processing)
    ensures var l' := Apply(limit, draw, l, op); Distinct(draw, l'.drawn, l'.main, l'.processing)
  {
    hide Distinct, Decode, Encode, IdOf, CountOf, PayloadOf, HasForm, Expired, SweepBatch, Fresh, PushHeads,
         RemoveFirst, RemoveEach, ZAdd, Due, AllDecode, Keys, PayloadSeq;
    match op
    case Send(p) =>
      EncodeHasForm(draw(l.drawn), 0, p);
      NewKey(draw, l.drawn, l.main, l.processing, Encode(draw(l.drawn), 0, p));
    case Schedule(p, second) => LaterDistinct(draw, l.drawn, l.drawn + 1, l.main, l.processing);
    case Receive => if l.main != [] { ReceivedDistinct(draw, l); }
    case Ack(key) => RemovedDistinct(draw, l.drawn, l.main, l.processing, key);
    case Nack(key) => RemovedDistinct(draw, l.drawn, l.main, l.processing, key);
    case Sweep(cutoff) => BatchDistinct(limit, draw, l, cutoff, LastOf(l.processing, SWEEP_BATCH));
    case Move(second) =>
      var batch := FirstOf(Due(l.delayed, second), MOVE_BATCH);
      PushedDistinct(draw, l.drawn, l.main, l.processing, PayloadSeq(Keys(batch)));
    case Redrive => PushedDistinct(draw, l.drawn, l.main, l.processing, l.dlq);
  }

  lemma {:induction false} RunDistinct(limit: Limit, draw: Draw, l: Lists, ops: seq<Op>)
    requires GoodDraw(draw) && Distinct(draw, l.drawn, l.main, l.processing)
    ensures var l' := ApplyAll(limit, draw, l, ops); Distinct(draw, l'.drawn, l'.main, l'.processing)
    decreases |ops|
  {
    hide Distinct, GoodDraw, Apply;
    if ops != [] {
      OpDistinct(limit, draw, l, ops[0]);
      RunDistinct(limit, draw, Apply(limit, draw, l, ops[0]), ops[1..]);
    }
  }

  lemma DistinctNoDup(draw: Draw, n: nat, main: seq<Bytes>, processing: seq<Bytes>)
    requires Distinct(draw, n, main, processing)
    ensures NoDup(processing)
  {
    hide Drawn;
    BagNoDup(processing);
  }

  /** The exact effect of a sweep, whatever was done before, from empty stores on. */
  lemma {:induction false} SweepExactlyInRuns(limit: Limit, draw: Draw, ops: seq<Op>, cutoff: Bytes)
    requires GoodDraw(draw)
    ensures SweepsExactly(limit, draw, ApplyAll(limit, draw, START, ops), cutoff)
  {
    hide ApplyAll, SweepsExactly, Distinct;
    var l := ApplyAll(limit, draw, START, ops);
    assert Distinct(draw, 0, [], []) by { NothingTwice(draw); }
    RunDistinct(limit, draw, START, ops);
    DistinctNoDup(draw, l.drawn, l.main, l.processing);
    SweepExactly(limit, draw, l, cutoff);
  }

  lemma NothingTwice(draw: Draw)
    ensures Distinct(draw, 0, [], [])
  {
  }

  /** Draining at one time, whatever was done before, from empty stores on. */
  lemma {:induction false} DrainInRuns(limit: Limit, draw: Draw, ops: seq<Op>, second: nat)
    requires GoodDraw(draw)
    ensures var l := ApplyAll(limit, draw, START, ops);
            AllDecode(Keys(Due(l.delayed, second))) && DrainsInOrder(draw, l, Drain(draw, l, second), second)
  {
    assert Valid(draw, START);
    RunRefines(limit, draw, START, ops);
    hide ApplyAll, DrainsInOrder, Drain, Due, Keys, AllDecode, AllForm;
    var l := ApplyAll(limit, draw, START, ops);
    DueIsThePrefix(l.delayed, second);
    DelayedDecode(draw, l.drawn, l.delayed, Due(l.delayed, second));
    DrainInOrder(draw, l, second);
  }
}

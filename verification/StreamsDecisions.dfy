/** What a sweep of the stream backend decides for each entry it claims, by its count and the retry limit. */
module StreamsDecisions {
  import opened Bytes
  import opened Codec
  import opened Ksuid
  import opened RedisLists
  import opened Retry
  import P = StreamsProtocol
  import opened StreamEntries
  import opened StreamsQueue
  import opened StreamsRefinement

  lemma {:induction false} RetriedMembers(limit: Limit, batch: seq<P.Entry>)
    ensures forall e :: e in Retried(limit, batch) <==> e in batch && (limit.None? || e.count + 1 < limit.value)
  {
    if batch != [] {
      RetriedMembers(limit, batch[1..]);
      assert batch == [batch[0]] + batch[1..];
    }
  }

  /** The entries whose next delivery is still allowed, in order. */
  function Below(limit: Limit, es: seq<P.Entry>): seq<P.Entry> {
    if es == [] then []
    else (if limit.None? || es[0].count + 1 < limit.value then [es[0]] else []) + Below(limit, es[1..])
  }

  /** The payloads of the others, in order. */
  function Over(limit: Limit, es: seq<P.Entry>): seq<Bytes> {
    if es == [] then []
    else (if limit.Some? && es[0].count + 1 >= limit.value then [es[0].payload] else []) + Over(limit, es[1..])
  }

  lemma {:induction false} RetriedAreBelow(limit: Limit, batch: seq<P.Entry>)
    ensures Retried(limit, batch) == Below(limit, batch)
  {
    if batch != [] { RetriedAreBelow(limit, batch[1..]); }
  }

  lemma {:induction false} VisitedAreOver(limit: Limit, s: Streams, batch: seq<P.Entry>)
    requires StreamOk(s) && (forall e | e in batch :: e in s.stream) && Visit(limit, s.stream, batch).1
    ensures Visit(limit, s.stream, batch).0 == Over(limit, batch)
    decreases |batch|
  {
    hide StreamOk, P.BodyOf;
    if batch != [] {
      assert batch == [batch[0]] + batch[1..];
      BodyInStream(s, batch[0]);
      VisitedAreOver(limit, s, batch[1..]);
    }
  }

  lemma {:induction false} XDelConcat(a: seq<P.Entry>, b: seq<P.Entry>, ids: seq<nat>)
    ensures P.XDel(a + b, ids) == P.XDel(a, ids) + P.XDel(b, ids)
    decreases |a|
  {
    if a == [] {
      assert a + b == b;
    } else {
      assert (a + b)[1..] == a[1..] + b;
      XDelConcat(a[1..], b, ids);
    }
  }

  /** What a finished sweep leaves, in order: the stream without the batch and then the copies, and the dead letters. */
  ghost predicate SweptInOrder(limit: Limit, s: Streams, s': Streams, batch: seq<P.Entry>) {
    var again := Below(limit, batch);
    && s'.dlq == s.dlq + Over(limit, batch)
    && var (rest, n) := (P.XDel(s.stream, P.Ids(batch)), |s'.stream| - |again|);
       && n >= 0 && s'.stream[..n] == rest
       && forall i | 0 <= i < |again| ::
            s'.stream[n + i] == P.Entry(s.lastId + 1 + i, again[i].payload, again[i].count + 1)
  }

  lemma InOrder(c: P.Config, s: Streams, batch: seq<P.Entry>, now: nat)
    requires StreamOk(s) && PendingOk(s) && ClaimReply(c, s, batch, now) && Visit(c.limit, s.stream, batch).1
    requires batch != []
    ensures SweptInOrder(c.limit, s, SweepOp(c.limit, s, batch, now).0, batch)
  {
    hide StreamOk, PendingOk, ClaimReply, P.XDel, P.HandOut, P.Ids, Visit, Retried, Below, Over;
    ClaimedAreRead(c, s, batch, now);
    RetriedAreBelow(c.limit, batch);
    VisitedAreOver(c.limit, s, batch);
    CopiesStay(s, batch, Below(c.limit, batch));
  }

  lemma CopiesStay(s: Streams, batch: seq<P.Entry>, again: seq<P.Entry>)
    requires StreamOk(s) && forall e | e in batch :: e in s.stream
    ensures P.XDel(s.stream + Copies(s.lastId, again), P.Ids(batch))
         == P.XDel(s.stream, P.Ids(batch)) + Copies(s.lastId, again)
  {
    var copies := Copies(s.lastId, again);
    forall x | x in copies ensures x.id !in P.Ids(batch) {
      var i :| 0 <= i < |copies| && copies[i] == x;
      IdsMember(batch, x.id);
    }
    hide P.XDel, P.Ids;
    XDelConcat(s.stream, copies, P.Ids(batch));
    XDelAbsent(copies, P.Ids(batch));
  }

  /** Some entry of `es` with payload `p` is at the limit. */
  ghost predicate AtTheLimit(limit: Limit, es: seq<P.Entry>, p: Bytes) {
    limit.Some? && exists e :: e in es && e.payload == p && e.count + 1 >= limit.value
  }

  lemma {:induction false} VisitedPayloads(limit: Limit, s: Streams, batch: seq<P.Entry>)
    requires StreamOk(s) && forall e | e in batch :: e in s.stream
    ensures var (bodies, finished) := Visit(limit, s.stream, batch);
            && (forall p | p in bodies :: AtTheLimit(limit, batch, p))
            && (finished ==> forall p | AtTheLimit(limit, batch, p) :: p in bodies)
            && (finished ==> |Retried(limit, batch)| + |bodies| == |batch|)
    decreases |batch|
  {
    hide StreamOk, P.BodyOf;
    if batch != [] {
      var (e, rest) := (batch[0], batch[1..]);
      assert batch == [e] + rest;
      BodyInStream(s, e);
      VisitedPayloads(limit, s, rest);
      forall p
        ensures AtTheLimit(limit, batch, p)
           <==> (limit.Some? && e.count + 1 >= limit.value && e.payload == p) || AtTheLimit(limit, rest, p)
      {
        assert forall x :: x in batch <==> x == e || x in rest;
      }
    }
  }

  /** Some entry newer than id `last` carries payload `p` and count `n`. */
  ghost predicate CopiedAs(stream: seq<P.Entry>, last: nat, p: Bytes, n: nat) {
    exists x :: x in stream && x.id > last && x.payload == p && x.count == n
  }

  ghost predicate ClaimedAs(batch: seq<P.Entry>, p: Bytes, n: nat) {
    exists e :: e in batch && e.payload == p && e.count == n
  }

  /**
   * A finished sweep takes exactly the claimed entries out of the stream. One of count `n` comes back as a new entry
   * of count `n + 1` if and only if `n + 1` is below the limit, and its payload goes to the dead-letter list if and
   * only if it is not; together these are as many as were claimed.
   */
  ghost predicate SweepDecidesAll(limit: Limit, s: Streams, s': Streams, batch: seq<P.Entry>) {
    && (forall e: P.Entry | e.id <= s.lastId :: e in s'.stream <==> e in s.stream && e !in batch)
    && (forall p, n: nat :: CopiedAs(s'.stream, s.lastId, p, n + 1)
                            <==> ClaimedAs(batch, p, n) && (limit.None? || n + 1 < limit.value))
    && (forall p :: !CopiedAs(s'.stream, s.lastId, p, 0))
    && s.dlq <= s'.dlq && (forall p :: p in s'.dlq[|s.dlq|..] <==> AtTheLimit(limit, batch, p))
    && (s'.lastId - s.lastId) + (|s'.dlq| - |s.dlq|) == |batch|
    && s'.pending.Keys == s.pending.Keys - set e | e in batch :: e.id
  }

  lemma CopiesHave(lastId: nat, queued: seq<P.Entry>, p: Bytes, n: nat)
    ensures CopiedAs(Copies(lastId, queued), lastId, p, n) <==> n > 0 && ClaimedAs(queued, p, n - 1)
  {
    var copies := Copies(lastId, queued);
    if CopiedAs(copies, lastId, p, n) {
      var i :| 0 <= i < |copies| && copies[i].payload == p && copies[i].count == n;
      assert queued[i] in queued;
    }
    if n > 0 && ClaimedAs(queued, p, n - 1) {
      var i :| 0 <= i < |queued| && queued[i].payload == p && queued[i].count == n - 1;
      assert copies[i] in copies && copies[i].id > lastId;
    }
  }

  /** The stream after the copies and the deletion of the batch. */
  lemma SweptMembers(s: Streams, batch: seq<P.Entry>, queued: seq<P.Entry>)
    requires StreamOk(s) && forall e | e in batch :: e in s.stream
    ensures var stream := P.XDel(s.stream + Copies(s.lastId, queued), P.Ids(batch));
            && (forall e: P.Entry | e.id <= s.lastId :: e in stream <==> e in s.stream && e !in batch)
            && (forall x: P.Entry | x.id > s.lastId :: x in stream <==> x in Copies(s.lastId, queued))
  {
    var copies := Copies(s.lastId, queued);
    CopiesComeAfter(s, queued);
    forall x | x in copies ensures x.id > s.lastId {
      var i :| 0 <= i < |copies| && copies[i] == x;
    }
    assert P.Ascending(s.stream) && forall e | e in s.stream :: e.id <= s.lastId;
    hide StreamOk, P.XDel, P.Ascending, P.Ids, Copies;
    XDelMembers(s.stream + copies, P.Ids(batch));
    forall e: P.Entry | e in s.stream || e.id > s.lastId ensures e.id in P.Ids(batch) <==> e in batch {
      IdsMember(batch, e.id);
      if x :| x in batch && x.id == e.id && e in s.stream { SameEntry(s.stream, e, x); }
    }
  }

  lemma CopiesComeAfter(s: Streams, queued: seq<P.Entry>)
    requires StreamOk(s)
    ensures P.Ascending(s.stream + Copies(s.lastId, queued))
  {
    var all := s.stream + Copies(s.lastId, queued);
    forall i, j | 0 <= i < j < |all| ensures all[i].id < all[j].id {
      if i < |s.stream| <= j { assert s.stream[i] in s.stream; }
    }
  }

  lemma SameEntry(stream: seq<P.Entry>, e: P.Entry, x: P.Entry)
    requires P.Ascending(stream) && e in stream && x in stream && x.id == e.id
    ensures x == e
  {
    var i :| 0 <= i < |stream| && stream[i] == e;
    var j :| 0 <= j < |stream| && stream[j] == x;
    assert i == j;
  }

  lemma Decided(c: P.Config, s: Streams, batch: seq<P.Entry>, now: nat)
    requires StreamOk(s) && PendingOk(s) && ClaimReply(c, s, batch, now) && Visit(c.limit, s.stream, batch).1
    requires batch != []
    ensures SweepDecidesAll(c.limit, s, SweepOp(c.limit, s, batch, now).0, batch)
  {
    hide StreamOk, PendingOk, ClaimReply, Visit, P.XDel, P.HandOut, Copies, Retried, NoDup, P.IdSet, P.Ids,
         CopiedAs, ClaimedAs, AtTheLimit;
    ClaimedAreRead(c, s, batch, now);
    VisitedPayloads(c.limit, s, batch);
    RetriedMembers(c.limit, batch);
    SweptMembers(s, batch, Retried(c.limit, batch));
    BatchIds(batch);
    var queued := Retried(c.limit, batch);
    var s' := SweepOp(c.limit, s, batch, now).0;
    forall p, n: nat
      ensures CopiedAs(s'.stream, s.lastId, p, n)
         <==> n > 0 && ClaimedAs(batch, p, n - 1) && (c.limit.None? || n < c.limit.value)
    {
      CopiesHave(s.lastId, queued, p, n);
      SameCopies(s'.stream, Copies(s.lastId, queued), s.lastId, p, n);
      if n > 0 { QueuedAs(c.limit, batch, queued, p, n - 1); }
    }
  }

  lemma BatchIds(batch: seq<P.Entry>)
    ensures P.IdSet(batch) == set e | e in batch :: e.id
  {
  }

  lemma SameCopies(stream: seq<P.Entry>, copies: seq<P.Entry>, last: nat, p: Bytes, n: nat)
    requires forall x: P.Entry | x.id > last :: x in stream <==> x in copies
    ensures CopiedAs(stream, last, p, n) <==> CopiedAs(copies, last, p, n)
  {
  }

  lemma QueuedAs(limit: Limit, batch: seq<P.Entry>, queued: seq<P.Entry>, p: Bytes, n: nat)
    requires forall e :: e in queued <==> e in batch && (limit.None? || e.count + 1 < limit.value)
    ensures ClaimedAs(queued, p, n) <==> ClaimedAs(batch, p, n) && (limit.None? || n + 1 < limit.value)
  {
  }

  /** The decisions of a sweep after any operations, from an empty stream on. */
  lemma {:induction false} SweepDecides(c: P.Config, draw: Draw, ops: seq<Op>, batch: seq<P.Entry>, now: nat)
    requires GoodDraw(draw) && ClaimReply(c, ApplyAll(c, draw, START, ops), batch, now) && batch != []
    ensures var s := ApplyAll(c, draw, START, ops);
            var (s', finished) := SweepOp(c.limit, s, batch, now);
            if finished then SweepDecidesAll(c.limit, s, s', batch) && SweptInOrder(c.limit, s, s', batch)
            else && s' == s.(pending := s'.pending, dlq := s'.dlq) && s'.pending.Keys == s.pending.Keys
                 && s.dlq <= s'.dlq && forall p | p in s'.dlq[|s.dlq|..] :: AtTheLimit(c.limit, batch, p)
  {
    assert Valid(draw, START);
    RunRefines(c, draw, START, ops);
    var s := ApplyAll(c, draw, START, ops);
    assert StreamOk(s) && PendingOk(s);
    hide ApplyAll, StreamOk, PendingOk, ClaimReply, Visit, P.XDel, P.HandOut, Copies, Retried, SweepDecidesAll,
         SweptInOrder;
    ClaimedAreRead(c, s, batch, now);
    if Visit(c.limit, s.stream, batch).1 {
      Decided(c, s, batch, now);
      InOrder(c, s, batch, now);
    } else {
      VisitedPayloads(c.limit, s, batch);
    }
  }
}

/** The operations of the list backend run one at a time, on the lists they change. */
module FallbackQueue {
  import opened Bytes
  import opened Codec
  import opened Ksuid
  import opened RedisLists
  import opened Retry
  import opened DelayedSet
  import opened DelayedKeys

  /** The four stores, and how many identifiers have been drawn. The head of a list is index 0. */
  datatype Lists = Lists(main: seq<Bytes>, processing: seq<Bytes>, delayed: seq<Member>, dlq: seq<Bytes>, drawn: nat)

  /** Keys with count 0 for bodies that enter the main list, with the next identifiers. */
  function Fresh(draw: Draw, n: nat, bodies: seq<Bytes>): (keys: seq<Bytes>)
    ensures |keys| == |bodies|
    ensures forall i | 0 <= i < |bodies| :: keys[i] == Encode(draw(n + i), 0, bodies[i])
  {
    seq(|bodies|, i requires 0 <= i < |bodies| => Encode(draw(n + i), 0, bodies[i]))
  }

  // ----- specifications -----

  function SendOp(draw: Draw, l: Lists, payload: Bytes): Lists {
    l.(main := [Encode(draw(l.drawn), 0, payload)] + l.main, drawn := l.drawn + 1)
  }

  function ScheduleOp(draw: Draw, l: Lists, payload: Bytes, second: nat): Lists {
    l.(delayed := ZAdd(l.delayed, Member(second, Encode(draw(l.drawn), 0, payload))), drawn := l.drawn + 1)
  }

  function ReceiveOp(l: Lists): Lists {
    if l.main == [] then l
    else
      var key := l.main[|l.main| - 1];
      l.(main := l.main[..|l.main| - 1], processing := [key] + l.processing)
  }

  function AckOp(l: Lists, key: Bytes): Lists {
    l.(processing := RemoveFirst(l.processing, key))
  }

  function NackOp(limit: Limit, l: Lists, key: Bytes, receives: nat): Lists {
    if AtLimit(limit, receives) then AckOp(l.(dlq := l.dlq + [DeadLetterBody(key)]), key) else l
  }

  /** One expired key of a sweep: a copy to the dead-letter list or to the pop end of main, then LREM. */
  function SweepOne(limit: Limit, draw: Draw, l: Lists, key: Bytes): Lists
    requires Decode(key).Ok?
  {
    var Ok(payload, receives) := Decode(key);
    if AtLimit(limit, receives)
    then l.(dlq := l.dlq + [payload], processing := RemoveFirst(l.processing, key))
    else l.(main := l.main + [Encode(draw(l.drawn), receives, payload)], drawn := l.drawn + 1,
            processing := RemoveFirst(l.processing, key))
  }

  /** The sweep's loop; the flag tells whether it got through the batch or met a key that does not decode. */
  function SweepBatch(limit: Limit, draw: Draw, l: Lists, cutoff: Bytes, batch: seq<Bytes>): (Lists, bool)
    decreases |batch|
  {
    if batch == [] then (l, true)
    else if !Expired(batch[0], cutoff) then SweepBatch(limit, draw, l, cutoff, batch[1..])
    else if !Decode(batch[0]).Ok? then (l, false)
    else SweepBatch(limit, draw, SweepOne(limit, draw, l, batch[0]), cutoff, batch[1..])
  }

  function SweepOp(limit: Limit, draw: Draw, l: Lists, cutoff: Bytes): (Lists, bool) {
    if l.processing == [] || !Expired(l.processing[|l.processing| - 1], cutoff) then (l, true)
    else SweepBatch(limit, draw, l, cutoff, LastOf(l.processing, SWEEP_BATCH))
  }

  /** `redrive_dlq` as one move of the whole dead-letter list. */
  function RedriveOp(draw: Draw, l: Lists): Lists {
    l.(main := PushHeads(l.main, Fresh(draw, l.drawn, l.dlq)), dlq := [], drawn := l.drawn + |l.dlq|)
  }

  /** One pass of the delayed mover that has the lock. */
  function MoveOp(draw: Draw, l: Lists, second: nat): (Lists, bool) {
    var batch := FirstOf(Due(l.delayed, second), MOVE_BATCH);
    if !AllDecode(Keys(batch)) then (l, false) else (MoveBatch(draw, l, batch), true)
  }

  function MoveBatch(draw: Draw, l: Lists, batch: seq<Member>): Lists {
    l.(main := PushHeads(l.main, Fresh(draw, l.drawn, PayloadSeq(Keys(batch)))),
       delayed := RemoveEach(l.delayed, batch), drawn := l.drawn + |batch|)
  }

  // ----- the exact effect of a sweep -----

  /** Where the sweep stops: the first expired key that does not decode, or the end of the batch. */
  function StopsAt(batch: seq<Bytes>, cutoff: Bytes): (k: nat)
    ensures k <= |batch|
  {
    if batch == [] || (Expired(batch[0], cutoff) && !Decode(batch[0]).Ok?) then 0 else 1 + StopsAt(batch[1..], cutoff)
  }

  /** The first `k` keys of the batch decode if they are expired; the next one, if any, is the first not to. */
  ghost predicate StopsFirst(batch: seq<Bytes>, cutoff: Bytes, k: nat) {
    && k <= |batch| && (forall i | 0 <= i < k :: Expired(batch[i], cutoff) ==> Decode(batch[i]).Ok?)
    && (k < |batch| ==> Expired(batch[k], cutoff) && !Decode(batch[k]).Ok?)
  }

  lemma {:induction false} StopsAtFirst(batch: seq<Bytes>, cutoff: Bytes)
    ensures StopsFirst(batch, cutoff, StopsAt(batch, cutoff))
  {
    hide Decode, Expired;
    if batch != [] && !(Expired(batch[0], cutoff) && !Decode(batch[0]).Ok?) { StopsAtFirst(batch[1..], cutoff); }
  }

  function Kept(keys: seq<Bytes>, cutoff: Bytes): seq<Bytes> {
    if keys == [] then []
    else (if Expired(keys[0], cutoff) then [] else [keys[0]]) + Kept(keys[1..], cutoff)
  }

  predicate Retries(limit: Limit, key: Bytes, cutoff: Bytes) {
    Expired(key, cutoff) && Decode(key).Ok? && (limit.None? || Decode(key).receives < limit.value)
  }

  /** The new keys for the expired ones below the limit, counted up, with the identifiers from the `n`-th on. */
  function Retried(limit: Limit, draw: Draw, n: nat, keys: seq<Bytes>, cutoff: Bytes): seq<Bytes>
    decreases |keys|
  {
    if keys == [] then []
    else if Retries(limit, keys[0], cutoff)
    then [Encode(draw(n), Decode(keys[0]).receives, Decode(keys[0]).payload)]
         + Retried(limit, draw, n + 1, keys[1..], cutoff)
    else Retried(limit, draw, n, keys[1..], cutoff)
  }

  /** The payloads of the expired keys at the limit. */
  function DeadLettered(limit: Limit, keys: seq<Bytes>, cutoff: Bytes): seq<Bytes> {
    if keys == [] then []
    else (if Expired(keys[0], cutoff) && Decode(keys[0]).Ok? && limit.Some? && Decode(keys[0]).receives >= limit.value
          then [Decode(keys[0]).payload] else [])
         + DeadLettered(limit, keys[1..], cutoff)
  }

  /** Removing a key that occurs once takes out exactly that place. */
  lemma {:induction false} RemoveAt<T>(front: seq<T>, x: T, back: seq<T>)
    requires x !in front
    ensures RemoveFirst(front + [x] + back, x) == front + back
  {
    var s := front + [x] + back;
    if front == [] {
      assert s[1..] == back && front + back == back;
    } else {
      assert s[1..] == front[1..] + [x] + back;
      RemoveAt(front[1..], x, back);
      assert front == [front[0]] + front[1..];
    }
  }

  /** The effect of a sweep on the keys `seen` before it stopped, starting from `l` and ending in `l'`. */
  ghost predicate SweptExactly(limit: Limit, draw: Draw, l: Lists, l': Lists, cutoff: Bytes,
                               front: seq<Bytes>, seen: seq<Bytes>, unseen: seq<Bytes>) {
    && l'.processing == front + Kept(seen, cutoff) + unseen
    && l'.main == l.main + Retried(limit, draw, l.drawn, seen, cutoff)
    && l'.dlq == l.dlq + DeadLettered(limit, seen, cutoff)
    && l'.delayed == l.delayed
  }

  /**
   * Exact effect of the loop on a processing list without repetitions: it loses exactly the expired keys looked at,
   * the rest stays in order; main gains their counted-up copies at its pop end, in the order of the batch, so the
   * oldest is popped first; the dead-letter list gains the payloads of those at the limit.
   */
  lemma {:induction false} SweepBatchExactly(limit: Limit, draw: Draw, l: Lists, cutoff: Bytes,
                                             front: seq<Bytes>, batch: seq<Bytes>)
    requires l.processing == front + batch && NoDup(l.processing)
    ensures var (l', finished) := SweepBatch(limit, draw, l, cutoff, batch);
            var k := StopsAt(batch, cutoff);
            && (finished <==> k == |batch|)
            && SweptExactly(limit, draw, l, l', cutoff, front, batch[..k], batch[k..])
    decreases |batch|
  {
    hide Encode, Decode, AtMost, NoDup, SweptExactly, Expired, RemoveFirst, AtLimit;
    var k := StopsAt(batch, cutoff);
    if k > 0 {
      var (key, rest) := (batch[0], batch[1..]);
      var l' := SweepBatch(limit, draw, l, cutoff, batch).0;
      assert batch[..k] == [key] + rest[..k - 1] && batch[k..] == rest[k - 1..];
      if !Expired(key, cutoff) {
        assert front + batch == (front + [key]) + rest;
        SweepBatchExactly(limit, draw, l, cutoff, front + [key], rest);
        SweptKept(limit, draw, l, l', cutoff, front, key, rest[..k - 1], rest[k - 1..]);
      } else {
        FirstOfBatch(front, batch);
        assert front + batch == front + [key] + rest;
        RemoveAt(front, key, rest);
        var l1 := SweepOne(limit, draw, l, key);
        SweepBatchExactly(limit, draw, l1, cutoff, front, rest);
        SweptOne(limit, draw, l, l1, l', cutoff, front, key, rest[..k - 1], rest[k - 1..]);
      }
    } else {
      assert batch[..0] == [] && batch[0..] == batch;
      SweptNothing(limit, draw, l, cutoff, front, batch);
    }
  }

  lemma SweptNothing(limit: Limit, draw: Draw, l: Lists, cutoff: Bytes, front: seq<Bytes>, batch: seq<Bytes>)
    requires l.processing == front + batch
    ensures SweptExactly(limit, draw, l, l, cutoff, front, [], batch)
  {
    assert front + [] + batch == front + batch;
  }

  lemma SweptKept(limit: Limit, draw: Draw, l: Lists, l': Lists, cutoff: Bytes,
                  front: seq<Bytes>, key: Bytes, seen: seq<Bytes>, unseen: seq<Bytes>)
    requires !Expired(key, cutoff) && SweptExactly(limit, draw, l, l', cutoff, front + [key], seen, unseen)
    ensures SweptExactly(limit, draw, l, l', cutoff, front, [key] + seen, unseen)
  {
    hide Encode, Decode, Expired;
    assert ([key] + seen)[1..] == seen;
    assert front + [key] + Kept(seen, cutoff) + unseen == front + ([key] + Kept(seen, cutoff)) + unseen;
  }

  lemma SweptOne(limit: Limit, draw: Draw, l: Lists, l1: Lists, l': Lists, cutoff: Bytes,
                 front: seq<Bytes>, key: Bytes, seen: seq<Bytes>, unseen: seq<Bytes>)
    requires Expired(key, cutoff) && Decode(key).Ok? && l1 == SweepOne(limit, draw, l, key)
    requires SweptExactly(limit, draw, l1, l', cutoff, front, seen, unseen)
    ensures SweptExactly(limit, draw, l, l', cutoff, front, [key] + seen, unseen)
  {
    hide Encode, Decode, Expired;
    assert ([key] + seen)[1..] == seen;
    assert [] + Kept(seen, cutoff) == Kept(seen, cutoff);
  }

  lemma FirstOfBatch(front: seq<Bytes>, batch: seq<Bytes>)
    requires NoDup(front + batch) && batch != []
    ensures batch[0] !in front && NoDup(front + batch[1..])
  {
    var s := front + batch;
    forall i | 0 <= i < |front| ensures front[i] != batch[0] {
      assert s[i] != s[|front|];
    }
    var r := front + batch[1..];
    forall i, j | 0 <= i < j < |r| ensures r[i] != r[j] {
      assert r[i] == s[if i < |front| then i else i + 1] && r[j] == s[if j < |front| then j else j + 1];
    }
  }

  /**
   * The exact effect of one sweep: nothing unless the tail is expired, else the loop over the last 50 keys up to the
   * first expired one that does not decode.
   */
  ghost predicate SweepsExactly(limit: Limit, draw: Draw, l: Lists, cutoff: Bytes) {
    var (l', finished) := SweepOp(limit, draw, l, cutoff);
    var n := if |l.processing| <= 50 then 0 else |l.processing| - 50;
    var (front, batch) := (l.processing[..n], l.processing[n..]);
    var k := StopsAt(batch, cutoff);
    if l.processing == [] || !Expired(l.processing[|l.processing| - 1], cutoff)
    then l' == l && finished
    else
      && StopsFirst(batch, cutoff, k) && (finished <==> k == |batch|)
      && SweptExactly(limit, draw, l, l', cutoff, front, batch[..k], batch[k..])
  }

  lemma SweepExactly(limit: Limit, draw: Draw, l: Lists, cutoff: Bytes)
    requires NoDup(l.processing)
    ensures SweepsExactly(limit, draw, l, cutoff)
  {
    hide Expired, NoDup, StopsAt, StopsFirst, SweepBatch, SweptExactly, Decode, LastOf;
    var n := if |l.processing| <= 50 then 0 else |l.processing| - 50;
    var (front, batch) := (l.processing[..n], l.processing[n..]);
    TheLastFifty(l.processing, n);
    SweepBatchExactly(limit, draw, l, cutoff, front, batch);
    StopsAtFirst(batch, cutoff);
  }

  lemma TheLastFifty<T>(s: seq<T>, n: nat)
    requires n == if |s| <= 50 then 0 else |s| - 50
    ensures LastOf(s, SWEEP_BATCH) == s[n..] && s == s[..n] + s[n..]
  {
  }

  /** The three outcomes of a sweep share out the payloads of the keys it has seen. */
  lemma {:induction false} SweepConservesPayloads(limit: Limit, draw: Draw, n: nat, keys: seq<Bytes>, cutoff: Bytes)
    requires WellFormedIds(draw)
    requires forall i | 0 <= i < |keys| :: Expired(keys[i], cutoff) ==> Decode(keys[i]).Ok?
    ensures Payloads(keys)
         == Payloads(Kept(keys, cutoff)) + Payloads(Retried(limit, draw, n, keys, cutoff))
            + multiset(DeadLettered(limit, keys, cutoff))
    decreases |keys|
  {
    hide Decode, Expired, Payloads, Kept, Retried, DeadLettered, Retries;
    if keys == [] {
      NothingSwept(limit, draw, n, cutoff);
    } else {
      var n' := if Retries(limit, keys[0], cutoff) then n + 1 else n;
      forall i | 0 <= i < |keys[1..]| ensures Expired(keys[1..][i], cutoff) ==> Decode(keys[1..][i]).Ok? {
        assert keys[1..][i] == keys[i + 1];
      }
      SweepConservesPayloads(limit, draw, n', keys[1..], cutoff);
      OneSwept(limit, draw, n, keys, cutoff);
    }
  }

  lemma NothingSwept(limit: Limit, draw: Draw, n: nat, cutoff: Bytes)
    ensures Kept([], cutoff) == [] && Retried(limit, draw, n, [], cutoff) == [] && DeadLettered(limit, [], cutoff) == []
    ensures Payloads([]) == multiset{}
  {
  }

  /** The payload of the first key goes to exactly one of the three outcomes. */
  lemma OneSwept(limit: Limit, draw: Draw, n: nat, keys: seq<Bytes>, cutoff: Bytes)
    requires WellFormedIds(draw) && keys != [] && (Expired(keys[0], cutoff) ==> Decode(keys[0]).Ok?)
    ensures var (body, rest) := (multiset{PayloadOf(keys[0])}, keys[1..]);
            var n' := if Retries(limit, keys[0], cutoff) then n + 1 else n;
            var (k, r, d) := (Payloads(Kept(keys, cutoff)), Payloads(Retried(limit, draw, n, keys, cutoff)),
                              multiset(DeadLettered(limit, keys, cutoff)));
            var (k', r', d') := (Payloads(Kept(rest, cutoff)), Payloads(Retried(limit, draw, n', rest, cutoff)),
                                 multiset(DeadLettered(limit, rest, cutoff)));
            && Payloads(keys) == body + Payloads(rest)
            && ((k == body + k' && r == r' && d == d') || (k == k' && r == body + r' && d == d')
                || (k == k' && r == r' && d == body + d'))
  {
    var (key, rest) := (keys[0], keys[1..]);
    FirstSeen(limit, draw, n, keys, cutoff);
    assert Payloads(keys) == multiset{PayloadOf(key)} + Payloads(rest) by { hide PayloadOf; }
    hide Encode, Decode, Expired, PayloadOf, Payloads, Kept, Retried, DeadLettered;
    if !Expired(key, cutoff) {
      PayloadsConcat([key], Kept(rest, cutoff));
      PayloadsSingle(key);
    } else {
      DecodedPayload(key);
      if Retries(limit, key, cutoff) { RetriedPayload(limit, draw, n, keys, cutoff); }
    }
  }

  lemma FirstSeen(limit: Limit, draw: Draw, n: nat, keys: seq<Bytes>, cutoff: Bytes)
    requires keys != []
    ensures Kept(keys, cutoff) == (if Expired(keys[0], cutoff) then [] else [keys[0]]) + Kept(keys[1..], cutoff)
    ensures Expired(keys[0], cutoff) ==> Kept(keys, cutoff) == Kept(keys[1..], cutoff)
    ensures !Retries(limit, keys[0], cutoff) ==>
              Retried(limit, draw, n, keys, cutoff) == Retried(limit, draw, n, keys[1..], cutoff)
    ensures Retries(limit, keys[0], cutoff) || !Expired(keys[0], cutoff) ==>
              DeadLettered(limit, keys, cutoff) == DeadLettered(limit, keys[1..], cutoff)
    ensures Expired(keys[0], cutoff) && Decode(keys[0]).Ok? && !Retries(limit, keys[0], cutoff) ==>
              DeadLettered(limit, keys, cutoff) == [Decode(keys[0]).payload] + DeadLettered(limit, keys[1..], cutoff)
  {
    hide Encode, Decode, Expired;
  }

  lemma RetriedPayload(limit: Limit, draw: Draw, n: nat, keys: seq<Bytes>, cutoff: Bytes)
    requires WellFormedIds(draw) && keys != [] && Retries(limit, keys[0], cutoff)
    ensures Payloads(Retried(limit, draw, n, keys, cutoff))
         == multiset{PayloadOf(keys[0])} + Payloads(Retried(limit, draw, n + 1, keys[1..], cutoff))
  {
    hide AtMost;
    var Ok(payload, receives) := Decode(keys[0]);
    DecodedPayload(keys[0]);
    EncodeHasForm(draw(n), receives, payload);
    var copy := Encode(draw(n), receives, payload);
    PayloadsConcat([copy], Retried(limit, draw, n + 1, keys[1..], cutoff));
    PayloadsSingle(copy);
  }

  // ----- batches are invisible -----

  lemma {:induction false} PushHeadsTwice<T>(s: seq<T>, a: seq<T>, b: seq<T>)
    ensures PushHeads(PushHeads(s, a), b) == PushHeads(s, a + b)
    decreases |a|
  {
    if a == [] {
      assert a + b == b;
    } else {
      assert (a + b)[1..] == a[1..] + b;
      PushHeadsTwice([a[0]] + s, a[1..], b);
    }
  }

  lemma FreshTwice(draw: Draw, n: nat, a: seq<Bytes>, b: seq<Bytes>)
    ensures Fresh(draw, n, a) + Fresh(draw, n + |a|, b) == Fresh(draw, n, a + b)
  {
  }

  lemma ReverseInvolution<T>(s: seq<T>)
    ensures Reverse(Reverse(s)) == s
  {
  }

  lemma {:induction false} ReverseConcat<T>(a: seq<T>, b: seq<T>)
    ensures Reverse(a + b) == Reverse(b) + Reverse(a)
  {
  }

  /** LPUSH of a batch appends it, in order, to the order in which messages are popped. */
  lemma PushOrder<T>(s: seq<T>, xs: seq<T>)
    ensures Reverse(PushHeads(s, xs)) == Reverse(s) + xs
  {
    PushHeadsReversed(s, xs);
    ReverseConcat(Reverse(xs), s);
    ReverseInvolution(xs);
  }

  lemma RedriveNothing(draw: Draw, l: Lists)
    requires l.dlq == []
    ensures RedriveOp(draw, l) == l
  {
  }

  lemma RedriveBatches(draw: Draw, l: Lists, l': Lists, batch: seq<Bytes>, rest: seq<Bytes>)
    requires l.dlq == batch + rest && l' == l.(main := PushHeads(l.main, Fresh(draw, l.drawn, batch)), dlq := rest,
                                               drawn := l.drawn + |batch|)
    ensures RedriveOp(draw, l') == RedriveOp(draw, l)
  {
    PushHeadsTwice(l.main, Fresh(draw, l.drawn, batch), Fresh(draw, l.drawn + |batch|, rest));
    FreshTwice(draw, l.drawn, batch, rest);
  }

  /** All passes of the delayed mover at one time, until nothing is due. */
  ghost function Drain(draw: Draw, l: Lists, second: nat): Lists
    requires AllDecode(Keys(Due(l.delayed, second)))
    decreases |l.delayed|
  {
    var due := Due(l.delayed, second);
    if due == [] then l
    else
      DrainStep(l.delayed, second);
      Drain(draw, MoveOp(draw, l, second).0, second)
  }

  /**
   * Draining ends with exactly the members that are not due, and appends the payloads of the due ones to main's
   * pop order by score, then bytes, as one unbatched move would.
   */
  lemma {:induction false} DrainIsOneMove(draw: Draw, l: Lists, second: nat)
    requires AllDecode(Keys(Due(l.delayed, second)))
    ensures var due := Due(l.delayed, second);
            var l' := Drain(draw, l, second);
            && |due| <= |l.delayed| && l'.delayed == l.delayed[|due|..]
            && Reverse(l'.main) == Reverse(l.main) + Fresh(draw, l.drawn, PayloadSeq(Keys(due)))
            && l'.drawn == l.drawn + |due| && l'.processing == l.processing && l'.dlq == l.dlq
    decreases |l.delayed|
  {
    hide Decode, Due, Keys, PayloadSeq, Reverse, PushHeads, RemoveEach, Fresh, FirstOf, AllDecode, MoveBatch;
    var due := Due(l.delayed, second);
    DrainStep(l.delayed, second);
    if due == [] {
      NothingDue(draw, l.drawn, l.delayed, l.main);
    } else {
      var batch := FirstOf(due, MOVE_BATCH);
      var rest := due[|batch|..];
      MoveBatchFrame(draw, l, batch);
      DrainIsOneMove(draw, MoveBatch(draw, l, batch), second);
      BatchThenRest(draw, l, batch, rest);
      assert l.delayed[|batch|..][|rest|..] == l.delayed[|due|..];
    }
  }

  /**
   * What draining a sorted set comes to: exactly the members with a score up to `second` leave it, and they are popped
   * after everything that was in main, by score, then bytes, with counts reset.
   */
  ghost predicate DrainsInOrder(draw: Draw, l: Lists, l': Lists, second: nat) {
    var due := Due(l.delayed, second);
    && (forall i, j | 0 <= i < j < |due| ::
          due[i].score < due[j].score || (due[i].score == due[j].score && Before(due[i].key, due[j].key)))
    && (forall m :: m in due <==> m in l.delayed && m.score <= second)
    && (forall m :: m in l'.delayed <==> m in l.delayed && m.score > second)
    && Reverse(l'.main) == Reverse(l.main) + Fresh(draw, l.drawn, PayloadSeq(Keys(due)))
    && l'.processing == l.processing && l'.dlq == l.dlq
  }

  lemma {:induction false} DrainInOrder(draw: Draw, l: Lists, second: nat)
    requires Sorted(l.delayed) && AllDecode(Keys(Due(l.delayed, second)))
    ensures DrainsInOrder(draw, l, Drain(draw, l, second), second)
  {
    hide Decode, Due, Keys, PayloadSeq, Reverse, Fresh, Drain, InOrder, Sorted;
    DrainIsOneMove(draw, l, second);
    DueSplits(l.delayed, second);
    SortedOrder(Due(l.delayed, second));
  }

  lemma MoveBatchFrame(draw: Draw, l: Lists, batch: seq<Member>)
    ensures var l' := MoveBatch(draw, l, batch);
            && l'.delayed == RemoveEach(l.delayed, batch) && l'.drawn == l.drawn + |batch|
            && l'.processing == l.processing && l'.dlq == l.dlq
  {
  }

  lemma NothingDue(draw: Draw, n: nat, z: seq<Member>, main: seq<Bytes>)
    ensures z[0..] == z && Reverse(main) + Fresh(draw, n, PayloadSeq(Keys([]))) == Reverse(main)
  {
  }

  /** Moving a batch and then the rest appends the two one after the other. */
  lemma BatchThenRest(draw: Draw, l: Lists, batch: seq<Member>, rest: seq<Member>)
    ensures Reverse(MoveBatch(draw, l, batch).main) + Fresh(draw, l.drawn + |batch|, PayloadSeq(Keys(rest)))
         == Reverse(l.main) + Fresh(draw, l.drawn, PayloadSeq(Keys(batch + rest)))
  {
    hide Encode, PushHeads, Reverse, PayloadSeq, Keys, PayloadOf, Fresh, RemoveEach;
    var (a, b) := (PayloadSeq(Keys(batch)), PayloadSeq(Keys(rest)));
    PushOrder(l.main, Fresh(draw, l.drawn, a));
    FreshTwice(draw, l.drawn, a, b);
    KeysConcat(batch, rest);
    PayloadSeqConcat(Keys(batch), Keys(rest));
  }

  /** One pass over a sorted set: the first `n` members go, and are popped after everything there is. */
  ghost predicate PassTakes(draw: Draw, l: Lists, l': Lists, n: nat) {
    && n <= |l.delayed| && l'.delayed == l.delayed[n..]
    && Reverse(l'.main) == Reverse(l.main) + Fresh(draw, l.drawn, PayloadSeq(Keys(l.delayed[..n])))
    && l'.processing == l.processing && l'.dlq == l.dlq
  }

  /** A pass takes exactly the due members, or the first 50 of them, unless one of these does not decode. */
  lemma PassTakesDue(draw: Draw, l: Lists, second: nat)
    requires Sorted(l.delayed)
    ensures var (l', passed) := MoveOp(draw, l, second);
            var n := PassSize(l.delayed, second);
            && |FirstOf(Due(l.delayed, second), MOVE_BATCH)| == n <= |l.delayed|
            && (passed <==> AllDecode(Keys(l.delayed[..n])))
            && if passed then PassTakes(draw, l, l', n) else l' == l
  {
    hide Due, Decode, RemoveEach, PushHeads, Fresh, Keys, PayloadSeq, Reverse, PassSize;
    PassTakesTheFirst(l.delayed, second);
    var n := PassSize(l.delayed, second);
    PushOrder(l.main, Fresh(draw, l.drawn, PayloadSeq(Keys(l.delayed[..n]))));
  }

  // ----- the order in which messages are popped -----

  /** A sent message is popped after everything there is, and a receive takes the one whose turn it is. */
  lemma FirstInFirstOut(draw: Draw, l: Lists, payload: Bytes)
    ensures Reverse(SendOp(draw, l, payload).main) == Reverse(l.main) + [Encode(draw(l.drawn), 0, payload)]
    ensures var l' := ReceiveOp(l);
            l.main != [] ==>
              && l'.processing == [Reverse(l.main)[0]] + l.processing
              && Reverse(l'.main) == Reverse(l.main)[1..]
  {
    hide Encode;
    PushOrder(l.main, [Encode(draw(l.drawn), 0, payload)]);
    OnePush(l.main, Encode(draw(l.drawn), 0, payload));
  }

  lemma OnePush<T>(s: seq<T>, x: T)
    ensures PushHeads(s, [x]) == [x] + s
  {
    assert [x][1..] == [];
  }

  /** Retried messages are popped before everything else, the oldest of them first. */
  lemma RetriedComeFirst(limit: Limit, draw: Draw, l: Lists, l': Lists, cutoff: Bytes,
                         front: seq<Bytes>, seen: seq<Bytes>, unseen: seq<Bytes>)
    requires SweptExactly(limit, draw, l, l', cutoff, front, seen, unseen)
    ensures Reverse(l'.main) == Reverse(Retried(limit, draw, l.drawn, seen, cutoff)) + Reverse(l.main)
  {
    ReverseConcat(l.main, Retried(limit, draw, l.drawn, seen, cutoff));
  }

  /**
   * A sweep counts the age of a message from its identifier: one that was received this very moment is taken from its
   * consumer, and waits or is dead-lettered again, if it was sent or requeued before the limit.
   */
  lemma TakenBackAtOnce(limit: Limit, draw: Draw, l: Lists, cutoff: Bytes)
    requires l.main != [] && l.processing == [] && Decode(l.main[|l.main| - 1]).Ok?
    ensures var (key, rest) := (l.main[|l.main| - 1], l.main[..|l.main| - 1]);
            var Ok(payload, receives) := Decode(key);
            var l' := SweepOp(limit, draw, ReceiveOp(l), cutoff).0;
            if !Expired(key, cutoff) then l' == ReceiveOp(l)
            else if limit.Some? && receives >= limit.value then l' == l.(main := rest, dlq := l.dlq + [payload])
            else l' == l.(main := rest + [Encode(draw(l.drawn), receives, payload)], drawn := l.drawn + 1)
  {
    hide Decode, Encode, AtMost;
    var key := l.main[|l.main| - 1];
    var r := ReceiveOp(l);
    assert r.processing == [key] && LastOf(r.processing, SWEEP_BATCH) == [key];
    var one: seq<Bytes> := [key];
    assert |one[1..]| == 0;
    assert RemoveFirst(one, key) == one[1..];
    if Expired(key, cutoff) {
      assert SweepBatch(limit, draw, SweepOne(limit, draw, r, key), cutoff, []).0 == SweepOne(limit, draw, r, key);
    }
  }
}

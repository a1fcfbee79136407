/** The stream backend, its operations run one at a time, implements the bag queue that the list backend implements. */
module StreamsRefinement {
  import opened Bytes
  import opened Codec
  import opened Ksuid
  import opened RedisLists
  import opened Retry
  import opened DelayedSet
  import opened DelayedKeys
  import P = StreamsProtocol
  import opened StreamEntries
  import opened StreamsQueue
  import opened BagBatches
  import B = BagQueue

  // ----- what the stores stand for -----

  function Abs(s: Streams): B.Bag {
    B.Bag(After(s.stream, s.lastRead), Upto(s.stream, s.lastRead), Payloads(Keys(s.delayed)), multiset(s.dlq))
  }

  /** Entries are in id order, and new ids come after all of them and after everything read. */
  ghost predicate StreamOk(s: Streams) {
    P.Ascending(s.stream) && s.lastRead <= s.lastId && forall e | e in s.stream :: e.id <= s.lastId
  }

  /** The pending entries are exactly those that were read and not yet deleted. */
  ghost predicate PendingOk(s: Streams) {
    forall id: nat :: id in s.pending <==> id <= s.lastRead && P.Present(s.stream, id)
  }

  ghost predicate Valid(draw: Draw, s: Streams) {
    StreamOk(s) && PendingOk(s) && DelayedOk(draw, s.drawn, s.delayed)
  }

  // ----- operations and the acts they carry out -----

  datatype Op =
    | Send(payload: Bytes)
    | Schedule(payload: Bytes, second: nat)
    | Read(max: nat, now: nat)
    | Ack(entry: P.Entry)
    | Nack(entry: P.Entry)
    | Sweep(batch: seq<P.Entry>, now: nat)
    | Move(second: nat)
    | Redrive

  /** `e` has been delivered: it was read, and may have been deleted since. */
  predicate Delivered(s: Streams, e: P.Entry) {
    e.id <= s.lastRead && (P.Present(s.stream, e.id) ==> e in s.stream)
  }

  /** Settlements are of deliveries, and a sweep is of a claimed batch; anything else changes nothing. */
  function Apply(c: P.Config, draw: Draw, s: Streams, op: Op): Streams {
    match op
    case Send(p) => AddOp(s, [p])
    case Schedule(p, second) => ScheduleOp(draw, s, p, second)
    case Read(max, now) => ReadOp(s, max, now)
    case Ack(e) => if Delivered(s, e) then AckOp(s, e.id) else s
    case Nack(e) => if Delivered(s, e) then NackOp(c.limit, s, e.id, e.count + 1) else s
    case Sweep(batch, now) => if ClaimReply(c, s, batch, now) then SweepOp(c.limit, s, batch, now).0 else s
    case Move(second) => MoveOp(s, second).0
    case Redrive => if c.limit.Some? then RedriveOp(s) else s
  }

  function Acts(c: P.Config, s: Streams, op: Op): seq<B.Act> {
    match op
    case Send(p) => [B.Send(p)]
    case Schedule(p, _) => [B.Schedule(p)]
    case Read(max, _) => Leases(Items(P.Unread(s.stream, s.lastRead, max)))
    case Ack(e) => if Delivered(s, e) && e in s.stream then [B.Ack(ItemOf(e))] else []
    case Nack(e) =>
      if Delivered(s, e) && e in s.stream && AtLimit(c.limit, e.count + 1) then [B.DeadLetter(ItemOf(e))] else []
    case Sweep(batch, now) =>
      if !ClaimReply(c, s, batch, now) then []
      else if Visit(c.limit, s.stream, batch).1 then TimeOuts(c.limit, Items(batch))
      else Each(DUPLICATING, Visit(c.limit, s.stream, batch).0)
    case Move(second) =>
      var batch := FirstOf(Due(s.delayed, second), MOVE_BATCH);
      if AllDecode(Keys(batch)) then Each(RELEASING, PayloadSeq(Keys(batch))) else []
    case Redrive => if c.limit.Some? then Each(REDRIVING, s.dlq) else []
  }

  ghost predicate Refines(c: P.Config, draw: Draw, s: Streams, op: Op) {
    var s' := Apply(c, draw, s, op);
    Valid(draw, s') && B.Path(c.limit, Abs(s), Acts(c, s, op), Abs(s'))
  }

  // ----- additions to the stream -----

  lemma PresentMember(stream: seq<P.Entry>, id: nat)
    ensures P.Present(stream, id) <==> exists e :: e in stream && e.id == id
  {
    if P.Present(stream, id) {
      var i :| 0 <= i < |stream| && stream[i].id == id;
      assert stream[i] in stream;
    }
  }

  /** Appending entries with new ids keeps the stream well formed, and nothing new counts as read. */
  lemma AppendOk(s: Streams, s': Streams, es: seq<P.Entry>)
    requires StreamOk(s) && PendingOk(s)
    requires s'.stream == s.stream + es && s'.lastId == s.lastId + |es|
    requires s'.lastRead == s.lastRead && s'.pending == s.pending
    requires forall i | 0 <= i < |es| :: es[i].id == s.lastId + 1 + i
    ensures StreamOk(s') && PendingOk(s')
    ensures Upto(s'.stream, s.lastRead) == Upto(s.stream, s.lastRead)
    ensures After(s'.stream, s.lastRead) == After(s.stream, s.lastRead) + multiset(Items(es))
  {
    Appended(s.stream, es, s.lastRead);
    forall id: nat ensures id in s'.pending <==> id <= s'.lastRead && P.Present(s'.stream, id) {
      PresentMember(s.stream, id);
      PresentMember(s'.stream, id);
    }
  }

  lemma {:induction false} NewItems(lastId: nat, bodies: seq<Bytes>)
    ensures multiset(Items(NewEntries(lastId, bodies))) == ZeroItems(bodies)
    decreases |bodies|
  {
    hide NewEntries, Items, ItemOf;
    if bodies == [] {
      assert NewEntries(lastId, []) == [];
      NoItems();
    } else {
      var e := P.Entry(lastId + 1, bodies[0], 0);
      NewEntriesCons(lastId, bodies);
      NewItems(lastId + 1, bodies[1..]);
      ItemsCons(e, NewEntries(lastId + 1, bodies[1..]));
      assert ItemOf(e) == B.Item(bodies[0], 0) by { ItemOfIs(e); }
    }
  }

  lemma ItemOfIs(e: P.Entry)
    ensures ItemOf(e) == B.Item(e.payload, e.count)
  {
  }

  lemma NewEntriesCons(lastId: nat, bodies: seq<Bytes>)
    requires bodies != []
    ensures NewEntries(lastId, bodies) == [P.Entry(lastId + 1, bodies[0], 0)] + NewEntries(lastId + 1, bodies[1..])
  {
  }

  /** XADD of bodies makes them waiting messages with count 0. */
  lemma AddWaits(s: Streams, bodies: seq<Bytes>)
    requires StreamOk(s) && PendingOk(s)
    ensures StreamOk(AddOp(s, bodies)) && PendingOk(AddOp(s, bodies))
    ensures Abs(AddOp(s, bodies)) == Abs(s).(waiting := Abs(s).waiting + ZeroItems(bodies))
  {
    hide StreamOk, PendingOk, Upto, After, Items, Payloads, Keys, ZeroItems;
    AppendOk(s, AddOp(s, bodies), NewEntries(s.lastId, bodies));
    NewItems(s.lastId, bodies);
  }

  // ----- one lemma per operation -----

  lemma SendRefines(c: P.Config, draw: Draw, s: Streams, p: Bytes)
    requires Valid(draw, s)
    ensures Refines(c, draw, s, Send(p))
  {
    hide StreamOk, PendingOk, DelayedOk, Abs, AddOp;
    AddWaits(s, [p]);
    OneZero(p);
    AddFrame(s, [p]);
    B.PathOne(c.limit, Abs(s), B.Send(p));
  }

  lemma OneZero(p: Bytes)
    ensures ZeroItems([p]) == multiset{B.Item(p, 0)}
  {
    assert [p][1..] == [];
  }

  lemma AddFrame(s: Streams, bodies: seq<Bytes>)
    ensures AddOp(s, bodies).delayed == s.delayed && AddOp(s, bodies).drawn == s.drawn && AddOp(s, bodies).dlq == s.dlq
  {
  }

  lemma ScheduleRefines(c: P.Config, draw: Draw, s: Streams, p: Bytes, second: nat)
    requires Valid(draw, s) && GoodDraw(draw)
    ensures Refines(c, draw, s, Schedule(p, second))
  {
    hide Upto, After, HasForm, PayloadOf, CountOf, IdOf, Encode, DelayedOk, Keys, Payloads, ZAdd, P.Ascending;
    var key := Encode(draw(s.drawn), 0, p);
    EncodeHasForm(draw(s.drawn), 0, p);
    DelayedAdd(draw, s.drawn, s.delayed, Member(second, key));
    B.PathOne(c.limit, Abs(s), B.Schedule(p));
  }

  lemma ReadRefines(c: P.Config, draw: Draw, s: Streams, max: nat, now: nat)
    requires Valid(draw, s)
    ensures Refines(c, draw, s, Read(max, now))
  {
    var es := P.Unread(s.stream, s.lastRead, max);
    if es == [] {
      assert Leases(Items(es)) == [];
    } else {
      ReadOk(s, max, now);
      ReadLeases(c.limit, s, max, now);
      hide StreamOk, PendingOk, DelayedOk, Abs, P.Unread, P.HandOut, Leases, Items;
    }
  }

  lemma ReadOk(s: Streams, max: nat, now: nat)
    requires StreamOk(s) && PendingOk(s)
    ensures StreamOk(ReadOp(s, max, now)) && PendingOk(ReadOp(s, max, now))
  {
    hide P.Present, P.Ascending, P.Unread, P.IdSet;
    var es := P.Unread(s.stream, s.lastRead, max);
    if es != [] {
      forall e ensures e in es <==> e in s.stream && s.lastRead < e.id <= es[|es| - 1].id {
        UnreadIsARange(s.stream, s.lastRead, max, e);
      }
      LastUnread(s.stream, s.lastRead, max);
      var s' := ReadOp(s, max, now);
      forall id: nat ensures id in s'.pending <==> id <= s'.lastRead && P.Present(s'.stream, id) {
        PresentMember(s.stream, id);
        IdSetMember(es, id);
      }
    }
  }

  lemma ReadLeases(limit: Limit, s: Streams, max: nat, now: nat)
    requires StreamOk(s) && P.Unread(s.stream, s.lastRead, max) != []
    ensures B.Path(limit, Abs(s), Leases(Items(P.Unread(s.stream, s.lastRead, max))), Abs(ReadOp(s, max, now)))
  {
    hide Upto, After, Items, Leases, Payloads, Keys, B.Path, P.HandOut, P.Unread;
    var es := P.Unread(s.stream, s.lastRead, max);
    var next := es[|es| - 1].id;
    ReadMoves(s.stream, s.lastRead, max);
    LeasePath(limit, Abs(s), Items(es));
    GoneFromSum(After(s.stream, next), multiset(Items(es)));
  }

  lemma GoneFromSum<T>(a: multiset<T>, b: multiset<T>)
    ensures a + b - b == a
  {
  }

  /** XACK and XDEL of read entries keep the stream and its pending list in step. */
  lemma DeleteOk(s: Streams, s': Streams, es: seq<P.Entry>)
    requires StreamOk(s) && PendingOk(s) && forall e | e in es :: e.id <= s.lastRead
    requires s'.stream == P.XDel(s.stream, P.Ids(es)) && s'.pending.Keys == s.pending.Keys - P.IdSet(es)
    requires s'.lastId == s.lastId && s'.lastRead == s.lastRead
    ensures StreamOk(s') && PendingOk(s')
  {
    hide P.Present, P.XDel, P.Ascending, P.IdSet;
    XDelMembers(s.stream, P.Ids(es));
    forall id: nat ensures id in s'.pending <==> id <= s'.lastRead && P.Present(s'.stream, id) {
      PresentMember(s.stream, id);
      PresentMember(s'.stream, id);
      IdSetMember(es, id);
      IdsMember(es, id);
    }
  }

  /** Acknowledging a delivery that still exists ends its lease. */
  lemma LeaseEnds(s: Streams, e: P.Entry)
    requires StreamOk(s) && PendingOk(s) && e in s.stream && e.id <= s.lastRead
    ensures StreamOk(AckOp(s, e.id)) && PendingOk(AckOp(s, e.id)) && ItemOf(e) in Abs(s).leased
    ensures Abs(AckOp(s, e.id)) == Abs(s).(leased := Abs(s).leased - multiset{ItemOf(e)})
  {
    hide Upto, After, ItemOf, StreamOk, PendingOk, P.XDel, Payloads, Keys;
    assert P.Ids([e]) == [e.id] && P.IdSet([e]) == {e.id} by { assert [e][0].id in P.IdSet([e]); }
    DeleteOk(s, AckOp(s, e.id), [e]);
    assert P.Ascending(s.stream) by { StreamIsAscending(s); }
    XDelOne(s.stream, e, s.lastRead);
  }

  lemma StreamIsAscending(s: Streams)
    requires StreamOk(s)
    ensures P.Ascending(s.stream)
  {
  }

  /** Acknowledging a delivery that was deleted meanwhile changes nothing. */
  lemma LeaseGone(s: Streams, id: nat)
    requires PendingOk(s) && !P.Present(s.stream, id)
    ensures AckOp(s, id) == s
  {
    forall e | e in s.stream ensures e.id !in [id] {
      PresentMember(s.stream, id);
    }
    XDelAbsent(s.stream, [id]);
    assert id !in s.pending;
  }

  lemma AckRefines(c: P.Config, draw: Draw, s: Streams, e: P.Entry)
    requires Valid(draw, s)
    ensures Refines(c, draw, s, Ack(e))
  {
    hide StreamOk, DelayedOk, Abs, P.XDel;
    PresentMember(s.stream, e.id);
    if Delivered(s, e) {
      if e in s.stream {
        hide PendingOk;
        LeaseEnds(s, e);
        B.PathOne(c.limit, Abs(s), B.Ack(ItemOf(e)));
      } else {
        LeaseGone(s, e.id);
      }
    }
  }

  lemma NackRefines(c: P.Config, draw: Draw, s: Streams, e: P.Entry)
    requires Valid(draw, s)
    ensures Refines(c, draw, s, Nack(e))
  {
    hide StreamOk, PendingOk, DelayedOk, Abs, AckOp, ItemOf;
    PresentMember(s.stream, e.id);
    if Delivered(s, e) && AtLimit(c.limit, e.count + 1) {
      if e in s.stream {
        BodyInStream(s, e);
        LeaseEnds(s, e);
        DeadLettered(s, e);
        ItemOfIs(e);
        B.PathOne(c.limit, Abs(s), B.DeadLetter(ItemOf(e)));
      } else {
        BodyGone(s.stream, e.id);
      }
    }
  }

  lemma BodyInStream(s: Streams, e: P.Entry)
    requires StreamOk(s) && e in s.stream
    ensures P.BodyOf(s.stream, e.id) == Some(e.payload)
  {
    BodyFound(s.stream, e);
  }

  lemma DeadLettered(s: Streams, e: P.Entry)
    requires StreamOk(AckOp(s, e.id)) && PendingOk(AckOp(s, e.id))
    ensures var s' := AckOp(s.(dlq := s.dlq + [e.payload]), e.id);
            && StreamOk(s') && PendingOk(s') && s'.delayed == s.delayed && s'.drawn == s.drawn
            && Abs(s') == Abs(AckOp(s, e.id)).(dead := Abs(s).dead + multiset{e.payload})
  {
    hide Upto, After, P.XDel, P.Ascending, P.Present, Payloads, Keys;
  }

  // ----- sweeps -----

  /** The copies a sweep makes are the items it puts back. */
  lemma {:induction false} CopiesAreAgain(limit: Limit, lastId: nat, batch: seq<P.Entry>)
    ensures multiset(Items(Copies(lastId, Retried(limit, batch)))) == Again(limit, Items(batch))
    decreases |batch|
  {
    hide Items, Copies, AtLimit, ItemOf, Again, Retried;
    if batch == [] {
      NothingRetried(limit, lastId);
    } else {
      var (e, rest) := (batch[0], batch[1..]);
      var copy := P.Entry(lastId + 1, e.payload, e.count + 1);
      FirstRetried(limit, lastId, batch);
      ItemsCons(e, rest);
      ItemOfIs(e);
      assert batch == [e] + rest && ([ItemOf(e)] + Items(rest))[1..] == Items(rest);
      FirstTimedOut(limit, Items(batch));
      if AtLimit(limit, e.count + 1) {
        CopiesAreAgain(limit, lastId, rest);
      } else {
        CopiesAreAgain(limit, lastId + 1, rest);
        ItemsCons(copy, Copies(lastId + 1, Retried(limit, rest)));
        ItemOfIs(copy);
      }
    }
  }

  lemma NothingRetried(limit: Limit, lastId: nat)
    ensures Copies(lastId, Retried(limit, [])) == [] && Items([]) == [] && Again(limit, Items([])) == multiset{}
    ensures Dead(limit, Items([])) == multiset{}
  {
  }

  lemma FirstRetried(limit: Limit, lastId: nat, batch: seq<P.Entry>)
    requires batch != []
    ensures var (e, rest) := (batch[0], batch[1..]);
            Copies(lastId, Retried(limit, batch))
            == if AtLimit(limit, e.count + 1) then Copies(lastId, Retried(limit, rest))
               else [P.Entry(lastId + 1, e.payload, e.count + 1)] + Copies(lastId + 1, Retried(limit, rest))
  {
    hide AtLimit, Copies, Retried;
    RetriedCons(limit, batch);
    CopiesCons(lastId, batch[0], Retried(limit, batch[1..]));
  }

  lemma RetriedCons(limit: Limit, batch: seq<P.Entry>)
    requires batch != []
    ensures Retried(limit, batch) == if AtLimit(limit, batch[0].count + 1) then Retried(limit, batch[1..])
                                     else [batch[0]] + Retried(limit, batch[1..])
  {
    hide AtLimit;
  }

  lemma CopiesCons(lastId: nat, e: P.Entry, es: seq<P.Entry>)
    ensures Copies(lastId, [e] + es) == [P.Entry(lastId + 1, e.payload, e.count + 1)] + Copies(lastId + 1, es)
  {
  }

  /** A sweep that gets through its batch has dead-lettered the payloads of the entries at the limit. */
  lemma {:induction false} VisitedBodies(limit: Limit, s: Streams, batch: seq<P.Entry>)
    requires StreamOk(s) && (forall e | e in batch :: e in s.stream) && Visit(limit, s.stream, batch).1
    ensures multiset(Visit(limit, s.stream, batch).0) == Dead(limit, Items(batch))
    decreases |batch|
  {
    hide Items, AtLimit, ItemOf, Dead, StreamOk, P.BodyOf;
    if batch == [] {
      NothingRetried(limit, 0);
    } else {
      var (e, rest) := (batch[0], batch[1..]);
      BodyInStream(s, e);
      VisitedBodies(limit, s, rest);
      ItemsCons(e, rest);
      ItemOfIs(e);
      assert batch == [e] + rest && ([ItemOf(e)] + Items(rest))[1..] == Items(rest);
      FirstTimedOut(limit, Items(batch));
    }
  }

  lemma ClaimedAreRead(c: P.Config, s: Streams, batch: seq<P.Entry>, now: nat)
    requires PendingOk(s) && ClaimReply(c, s, batch, now)
    ensures NoDup(P.Ids(batch)) && forall e | e in batch :: e in s.stream && e.id <= s.lastRead
    ensures P.HandOut(s.pending, batch, now).Keys == s.pending.Keys
  {
    forall e | e in batch ensures e in s.stream && e.id <= s.lastRead {
      var i :| 0 <= i < |batch| && batch[i] == e;
      assert batch[i].id in s.pending;
    }
    forall id | id in P.IdSet(batch) ensures id in s.pending {}
  }

  lemma SweepRefines(c: P.Config, draw: Draw, s: Streams, batch: seq<P.Entry>, now: nat)
    requires Valid(draw, s)
    ensures Refines(c, draw, s, Sweep(batch, now))
  {
    hide StreamOk, PendingOk, DelayedOk, Abs, ClaimReply, SweepOp, Each, TimeOuts, Visit, Items;
    if ClaimReply(c, s, batch, now) {
      if Visit(c.limit, s.stream, batch).1 {
        SweepFinished(c, draw, s, batch, now);
      } else {
        SweepAborted(c, draw, s, batch, now);
      }
    }
  }

  lemma SweepAborted(c: P.Config, draw: Draw, s: Streams, batch: seq<P.Entry>, now: nat)
    requires Valid(draw, s) && ClaimReply(c, s, batch, now) && !Visit(c.limit, s.stream, batch).1
    ensures var s' := SweepOp(c.limit, s, batch, now).0;
            && Valid(draw, s')
            && B.Path(c.limit, Abs(s), Each(DUPLICATING, Visit(c.limit, s.stream, batch).0), Abs(s'))
  {
    var bodies := Visit(c.limit, s.stream, batch).0;
    ClaimedAreRead(c, s, batch, now);
    hide Upto, After, ClaimReply, P.HandOut, P.Present, P.Ascending, DelayedOk, Payloads, Keys, Each, B.Path;
    assert bodies != [] ==> c.limit.Some? by { BodiesNeedALimit(c.limit, s.stream, batch); }
    hide Visit;
    if bodies == [] {
      assert Each(DUPLICATING, []) == [] && s.dlq + [] == s.dlq;
      assert B.Path(c.limit, Abs(s), [], Abs(s));
    } else {
      DuplicatePath(c.limit, Abs(s), bodies);
      assert multiset(s.dlq + bodies) == multiset(s.dlq) + multiset(bodies);
    }
  }

  lemma {:induction false} BodiesNeedALimit(limit: Limit, stream: seq<P.Entry>, batch: seq<P.Entry>)
    ensures Visit(limit, stream, batch).0 != [] ==> limit.Some?
    decreases |batch|
  {
    hide P.BodyOf;
    if batch != [] { BodiesNeedALimit(limit, stream, batch[1..]); }
  }

  lemma SweepFinished(c: P.Config, draw: Draw, s: Streams, batch: seq<P.Entry>, now: nat)
    requires Valid(draw, s) && ClaimReply(c, s, batch, now) && Visit(c.limit, s.stream, batch).1
    ensures var s' := SweepOp(c.limit, s, batch, now).0;
            Valid(draw, s') && B.Path(c.limit, Abs(s), TimeOuts(c.limit, Items(batch)), Abs(s'))
  {
    hide StreamOk, PendingOk, DelayedOk, Abs, ClaimReply, TimeOuts, Visit, Items, P.XDel, P.HandOut, Copies, Retried,
         B.Path, AllTimedOut;
    if batch == [] {
      assert TimeOuts(c.limit, Items([])) == [] by { NoItems(); NoTimeOuts(c.limit); }
      assert B.Path(c.limit, Abs(s), [], Abs(s)) by { NoPath(c.limit, Abs(s)); }
    } else {
      SweptStream(c, s, batch, now);
      TimeOutPath(c.limit, Abs(s), Items(batch));
    }
  }

  lemma NoTimeOuts(limit: Limit)
    ensures TimeOuts(limit, []) == []
  {
  }

  lemma NoPath(limit: Limit, b: B.Bag)
    ensures B.Path(limit, b, [], b)
  {
  }

  /** The batch is copied, acknowledged and deleted: together, every claimed message has timed out once. */
  lemma SweptStream(c: P.Config, s: Streams, batch: seq<P.Entry>, now: nat)
    requires StreamOk(s) && PendingOk(s) && ClaimReply(c, s, batch, now) && Visit(c.limit, s.stream, batch).1
    requires batch != []
    ensures var s' := SweepOp(c.limit, s, batch, now).0;
            && StreamOk(s') && PendingOk(s') && s'.delayed == s.delayed && s'.drawn == s.drawn
            && multiset(Items(batch)) <= Abs(s).leased && Abs(s') == AllTimedOut(c.limit, Abs(s), Items(batch))
  {
    ClaimedAreRead(c, s, batch, now);
    hide PendingOk, ClaimReply, Visit, Items, P.XDel, P.HandOut, Copies, Retried, Upto, After, Payloads, Keys, Again,
         Dead, P.Ids, P.IdSet, NoDup, P.Ascending;
    var queued := Retried(c.limit, batch);
    var copies := Copies(s.lastId, queued);
    var s' := SweepOp(c.limit, s, batch, now).0;
    var t := s.(stream := s.stream + copies, lastId := s.lastId + |queued|);
    AppendOk(s, t, copies);
    DeleteOk(t, s', batch);
    XDelBatch(t.stream, batch, s.lastRead);
    CopiesAreAgain(c.limit, s.lastId, batch);
    VisitedBodies(c.limit, s, batch);
    Parted(Upto(s.stream, s.lastRead), Upto(s'.stream, s.lastRead), multiset(Items(batch)));
  }

  lemma Parted<T>(whole: multiset<T>, rest: multiset<T>, part: multiset<T>)
    requires whole == rest + part
    ensures part <= whole && whole - part == rest
  {
  }

  // ----- moves and redrives -----

  lemma RedriveRefines(c: P.Config, draw: Draw, s: Streams)
    requires Valid(draw, s)
    ensures Refines(c, draw, s, Redrive)
  {
    hide StreamOk, PendingOk, DelayedOk, Upto, After, Payloads, Keys, ZeroItems, Each, NewEntries, B.Path;
    if c.limit.Some? {
      AddWaits(s, s.dlq);
      WithoutDlq(AddOp(s, s.dlq));
      RedrivePath(c.limit, Abs(s), s.dlq);
      assert Abs(s).dead - multiset(s.dlq) == multiset{};
    } else {
      NoPath(c.limit, Abs(s));
    }
  }

  lemma WithoutDlq(s: Streams)
    requires StreamOk(s) && PendingOk(s)
    ensures StreamOk(s.(dlq := [])) && PendingOk(s.(dlq := []))
  {
  }

  lemma MoveRefines(c: P.Config, draw: Draw, s: Streams, second: nat)
    requires Valid(draw, s)
    ensures Refines(c, draw, s, Move(second))
  {
    hide Valid, Abs, AddOp, Keys, AllDecode, Due, FirstOf, RemoveEach, PayloadSeq, Each;
    var batch := FirstOf(Due(s.delayed, second), MOVE_BATCH);
    if AllDecode(Keys(batch)) {
      var rest := MovePrefix(s.delayed, second);
      MoveBatchRefines(c, draw, s, batch, rest);
    }
  }

  lemma MoveBatchRefines(c: P.Config, draw: Draw, s: Streams, batch: seq<Member>, rest: seq<Member>)
    requires Valid(draw, s) && s.delayed == batch + rest
    ensures var bodies := PayloadSeq(Keys(batch));
            var s' := AddOp(s, bodies).(delayed := rest);
            Valid(draw, s') && B.Path(c.limit, Abs(s), Each(RELEASING, bodies), Abs(s'))
  {
    hide StreamOk, PendingOk, DelayedOk, Upto, After, Payloads, Keys, PayloadSeq, ZeroItems, Each, NewEntries, B.Path;
    var bodies := PayloadSeq(Keys(batch));
    AddWaits(s, bodies);
    WithoutMoved(AddOp(s, bodies), rest);
    DelayedSuffix(draw, s.drawn, batch, rest);
    KeysConcat(batch, rest);
    PayloadsConcat(Keys(batch), Keys(rest));
    PayloadsAreTheSeq(Keys(batch));
    ReleasePath(c.limit, Abs(s), bodies);
    assert Abs(s).delayed - multiset(bodies) == Payloads(Keys(rest));
  }

  lemma WithoutMoved(s: Streams, rest: seq<Member>)
    requires StreamOk(s) && PendingOk(s)
    ensures StreamOk(s.(delayed := rest)) && PendingOk(s.(delayed := rest))
  {
  }

  lemma OpRefines(c: P.Config, draw: Draw, s: Streams, op: Op)
    requires Valid(draw, s) && GoodDraw(draw)
    ensures Refines(c, draw, s, op)
  {
    hide Refines, Valid, GoodDraw;
    match op
    case Send(p) => SendRefines(c, draw, s, p);
    case Schedule(p, second) => ScheduleRefines(c, draw, s, p, second);
    case Read(max, now) => ReadRefines(c, draw, s, max, now);
    case Ack(e) => AckRefines(c, draw, s, e);
    case Nack(e) => NackRefines(c, draw, s, e);
    case Sweep(batch, now) => SweepRefines(c, draw, s, batch, now);
    case Move(second) => MoveRefines(c, draw, s, second);
    case Redrive => RedriveRefines(c, draw, s);
  }

  // ----- runs -----

  const START: Streams := Streams([], 0, 0, map[], [], [], 0)

  function ApplyAll(c: P.Config, draw: Draw, s: Streams, ops: seq<Op>): Streams
    decreases |ops|
  {
    if ops == [] then s else ApplyAll(c, draw, Apply(c, draw, s, ops[0]), ops[1..])
  }

  function ActsOfAll(c: P.Config, draw: Draw, s: Streams, ops: seq<Op>): seq<B.Act>
    decreases |ops|
  {
    if ops == [] then [] else Acts(c, s, ops[0]) + ActsOfAll(c, draw, Apply(c, draw, s, ops[0]), ops[1..])
  }

  /** Every run of operations on the stream is a run of the bag queue, act for act. */
  lemma {:induction false} RunRefines(c: P.Config, draw: Draw, s: Streams, ops: seq<Op>)
    requires Valid(draw, s) && GoodDraw(draw)
    ensures var s' := ApplyAll(c, draw, s, ops);
            Valid(draw, s') && B.Path(c.limit, Abs(s), ActsOfAll(c, draw, s, ops), Abs(s'))
    decreases |ops|
  {
    hide Valid, GoodDraw, Abs, Apply, Acts;
    if ops != [] {
      OpRefines(c, draw, s, ops[0]);
      var s1 := Apply(c, draw, s, ops[0]);
      RunRefines(c, draw, s1, ops[1..]);
      B.PathConcat(c.limit, Abs(s), Acts(c, s, ops[0]), Abs(s1), ActsOfAll(c, draw, s1, ops[1..]),
                   Abs(ApplyAll(c, draw, s, ops)));
    }
  }

  /**
   * From an empty stream: the stream backend implements the bag queue, with a retry limit counts stay below it,
   * and every message that was read and not settled is still pending, so a sweep can reach it.
   */
  lemma {:induction false} StreamsImplementTheBagQueue(c: P.Config, draw: Draw, ops: seq<Op>)
    requires GoodDraw(draw)
    ensures var s' := ApplyAll(c, draw, START, ops);
            && B.Path(c.limit, B.EMPTY, ActsOfAll(c, draw, START, ops), Abs(s'))
            && B.Bounded(c.limit, Abs(s')) && PendingOk(s')
  {
    hide ApplyAll, ActsOfAll;
    assert Valid(draw, START) && Abs(START) == B.EMPTY;
    RunRefines(c, draw, START, ops);
    B.PathKeepsBounds(c.limit, B.EMPTY, ActsOfAll(c, draw, START, ops), Abs(ApplyAll(c, draw, START, ops)));
  }
}

/** The stream backend as it runs: a server whose stores producers, consumers and background tasks change in place. */
module StreamServer {
  import opened Bytes
  import opened Codec
  import opened Ksuid
  import opened RedisLists
  import opened Retry
  import opened DelayedSet
  import P = StreamsProtocol
  import opened DelayedKeys
  import opened StreamEntries
  import opened StreamsQueue

  datatype Delivery = Delivery(id: nat, payload: Bytes, receives: nat)

  /** What a read comes to: its deliveries, or nothing at all when one entry has an unreadable count. */
  datatype Received = Unreadable | Got(deliveries: seq<Delivery>)

  datatype Settled = Done | CannotAckOrNackTwice | NoData

  function DeliveriesOf(es: seq<P.Entry>): (ds: seq<Delivery>)
    ensures |ds| == |es|
    ensures forall i | 0 <= i < |es| :: ds[i] == Delivery(es[i].id, es[i].payload, es[i].count + 1)
  {
    seq(|es|, i requires 0 <= i < |es| => Delivery(es[i].id, es[i].payload, es[i].count + 1))
  }

  /** `wrap_entry` of each entry, unless one of them has a count that cannot be read. */
  method WrapEntries(es: seq<P.Entry>) returns (r: Received)
    ensures r == if forall i | 0 <= i < |es| :: es[i].count < USIZE_MAX then Got(DeliveriesOf(es)) else Unreadable
  {
    var out: seq<Delivery> := [];
    for i := 0 to |es|
      invariant out == DeliveriesOf(es[..i])
      invariant forall j | 0 <= j < i :: es[j].count < USIZE_MAX
    {
      if !P.Readable(es[i]) { return Unreadable; }
      out := out + [Delivery(es[i].id, es[i].payload, es[i].count + 1)];
      assert es[..i + 1] == es[..i] + [es[i]];
    }
    assert es[..|es|] == es;
    r := Got(out);
  }

  class Server {
    /** The identifiers the library will draw for delayed messages. */
    const draw: Draw
    var stream: seq<P.Entry>
    var lastId: nat
    var lastRead: nat
    var pending: map<nat, nat>
    var delayed: seq<Member>
    var dlq: seq<Bytes>
    var drawn: nat

    ghost function View(): Streams
      reads this
    {
      Streams(stream, lastId, lastRead, pending, delayed, dlq, drawn)
    }

    constructor (draw: Draw)
      ensures View() == Streams([], 0, 0, map[], [], [], 0) && this.draw == draw
    {
      this.draw := draw;
      stream, lastId, lastRead, pending, delayed, dlq, drawn := [], 0, 0, map[], [], [], 0;
    }

    /** XADD stream * */
    method XAdd(payload: Bytes, count: nat)
      modifies this`stream, this`lastId
      ensures stream == old(stream) + [P.Entry(old(lastId) + 1, payload, count)] && lastId == old(lastId) + 1
    {
      lastId := lastId + 1;
      stream := stream + [P.Entry(lastId, payload, count)];
    }

    method SendRaw(payload: Bytes)
      modifies this`stream, this`lastId
      ensures View() == AddOp(old(View()), [payload])
    {
      XAdd(payload, 0);
    }

    method SendRawScheduled(payload: Bytes, now: real, delay: real) returns (sent: bool)
      modifies this`delayed, this`drawn
      ensures sent <==> now + delay >= 0.0
      ensures sent ==>
                var m := Member((now + delay).Floor, Encode(draw(old(drawn)), 0, payload));
                forall x :: x in delayed <==> x == m || (x in old(delayed) && x.key != m.key)
      ensures View() == if sent then ScheduleOp(draw, old(View()), payload, (now + delay).Floor) else old(View())
    {
      var score := UnixTimestamp(now + delay);
      if score == None { return false; }
      delayed := ZAdd(delayed, Member(score.value, Encode(draw(drawn), 0, payload)));
      drawn := drawn + 1;
      ZAddMembers(old(delayed), Member((now + delay).Floor, Encode(draw(old(drawn)), 0, payload)));
      sent := true;
    }

    /**
     * `receive_all` when its wait has ended; `receive` is the case `maxMessages == 1`, and 0 is no limit. The entries
     * after the group's last one are handed out even when the reply is then lost to an unreadable count.
     */
    method ReceiveAll(maxMessages: nat, now: nat) returns (r: Received)
      modifies this`lastRead, this`pending
      ensures View() == ReadOp(old(View()), if maxMessages == 0 then |old(stream)| else maxMessages, now)
      ensures var es := P.Unread(old(stream), old(lastRead), if maxMessages == 0 then |old(stream)| else maxMessages);
              && (P.Ascending(old(stream)) ==> TakesLowest(old(stream), old(lastRead), maxMessages, es))
              && HandsOut(old(View()), View(), es, now)
              && r == if forall i | 0 <= i < |es| :: es[i].count < USIZE_MAX then Got(DeliveriesOf(es)) else Unreadable
    {
      hide TakesLowest, HandsOut, P.Unread, P.HandOut, P.Ascending;
      var es := P.Unread(stream, lastRead, ReadLimit(stream, maxMessages));
      if P.Ascending(stream) { ReadTakesLowest(stream, lastRead, maxMessages); }
      HandedOut(View(), ReadLimit(stream, maxMessages), now);
      if es != [] { lastRead, pending := es[|es| - 1].id, P.HandOut(pending, es, now); }
      r := WrapEntries(es);
    }

    /** `add_to_main_queue`: whatever the counts were, they are reset. */
    method AddToMainQueue(bodies: seq<Bytes>)
      modifies this`stream, this`lastId
      ensures View() == AddOp(old(View()), bodies)
    {
      for i := 0 to |bodies|
        invariant stream == old(stream) + NewEntries(old(lastId), bodies[..i]) && lastId == old(lastId) + i
        invariant unchanged(this`lastRead, this`pending, this`delayed, this`dlq, this`drawn)
      {
        XAdd(bodies[i], 0);
        assert NewEntries(old(lastId), bodies[..i + 1])
            == NewEntries(old(lastId), bodies[..i]) + [P.Entry(old(lastId) + 1 + i, bodies[i], 0)];
      }
      assert bodies[..|bodies|] == bodies;
    }

    /** The pipeline of XADDs with which a sweep puts messages back, under new ids. */
    method AddCopies(queued: seq<P.Entry>)
      modifies this`stream, this`lastId
      ensures stream == old(stream) + Copies(old(lastId), queued) && lastId == old(lastId) + |queued|
    {
      for i := 0 to |queued|
        invariant stream == old(stream) + Copies(old(lastId), queued[..i]) && lastId == old(lastId) + i
      {
        XAdd(queued[i].payload, queued[i].count + 1);
        assert Copies(old(lastId), queued[..i + 1])
            == Copies(old(lastId), queued[..i])
               + [P.Entry(old(lastId) + 1 + i, queued[i].payload, queued[i].count + 1)];
      }
      assert queued[..|queued|] == queued;
    }

    /** `reenqueue_timed_out_messages`, with the reply of its XAUTOCLAIM. */
    method ReenqueueTimedOut(c: P.Config, batch: seq<P.Entry>, now: nat) returns (finished: bool)
      requires ClaimReply(c, View(), batch, now)
      modifies this`stream, this`lastId, this`pending, this`dlq
      ensures (View(), finished) == SweepOp(c.limit, old(View()), batch, now)
      ensures !finished ==> stream == old(stream) && forall e | e in batch :: e.id in pending && pending[e.id] == now
    {
      hide Copies, P.XDel, P.BodyOf, P.HandOut, AtLimit, Visit, Retried;
      if batch == [] { return true; }
      ClaimHandsOut(pending, batch, now);
      pending := P.HandOut(pending, batch, now);
      var queued: seq<P.Entry> := [];
      for i := 0 to |batch|
        invariant unchanged(this`stream, this`lastId)
        invariant pending == P.HandOut(old(pending), batch, now)
        invariant queued + Retried(c.limit, batch[i..]) == Retried(c.limit, batch)
        invariant Visit(c.limit, stream, batch).1 == Visit(c.limit, stream, batch[i..]).1
        invariant dlq + Visit(c.limit, stream, batch[i..]).0 == old(dlq) + Visit(c.limit, stream, batch).0
      {
        var e := batch[i];
        VisitNext(c.limit, stream, batch[i..]);
        assert batch[i..][1..] == batch[i + 1..] && dlq + [] == dlq;
        if !P.Readable(e) { return false; }
        if AtLimit(c.limit, e.count + 1) {
          var body := P.BodyOf(stream, e.id);
          if body == None { return false; }
          dlq := dlq + [body.value];
        } else {
          queued := queued + [e];
        }
      }
      VisitNothing(c.limit, stream);
      assert queued + [] == queued && dlq + [] == dlq;
      AddCopies(queued);
      pending := pending - P.IdSet(batch);
      stream := P.XDel(stream, P.Ids(batch));
      finished := true;
    }

    /** `redrive_dlq`: the whole list is added in order with counts reset, in rounds of 51. */
    method RedriveDlq(limit: Limit) returns (supported: bool, ghost rounds: nat)
      modifies this`stream, this`lastId, this`dlq
      ensures supported <==> limit.Some?
      ensures rounds == if supported then (|old(dlq)| + 50) / 51 else 0
      ensures View() == if supported then RedriveOp(old(View())) else old(View())
      ensures supported ==> dlq == [] && stream == old(stream) + NewEntries(old(lastId), old(dlq))
    {
      hide NewEntries;
      rounds := 0;
      if limit.None? { return false, rounds; }
      while dlq != []
        invariant rounds + (|dlq| + 50) / 51 == (|old(dlq)| + 50) / 51
        invariant RedriveOp(View()) == RedriveOp(old(View()))
        decreases |dlq|
      {
        ghost var before := View();
        var batch := FirstOf(dlq, REDRIVE_BATCH);
        ghost var rest := dlq[|batch|..];
        assert dlq == batch + rest;
        AddToMainQueue(batch);
        ghost var added := View();
        for j := 0 to |batch|
          invariant dlq == batch[j..] + rest && View() == added.(dlq := dlq)
        {
          assert (batch[j..] + rest)[1..] == batch[j + 1..] + rest;
          dlq := RemoveFirst(dlq, batch[j]);
        }
        RedriveBatches(before, batch, rest);
        rounds := rounds + 1;
      }
      RedriveNothing(View());
      supported := true;
    }

    /** The part of `background_task_delayed` between taking and releasing the lock. */
    method MoveDue(second: nat) returns (moved: bool)
      modifies this`stream, this`lastId, this`delayed
      ensures (View(), moved) == MoveOp(old(View()), second)
      ensures moved && Sorted(old(delayed)) ==>
                var due := |set m | m in old(delayed) && m.score <= second|;
                var n := if due < 50 then due else 50;
                && n <= |old(delayed)| && delayed == old(delayed)[n..]
                && stream == old(stream) + NewEntries(old(lastId), PayloadSeq(Keys(old(delayed)[..n])))
    {
      hide Due, RemoveEach, Keys, PayloadSeq, AllDecode, NewEntries;
      if Sorted(delayed) { PassTakesDue(View(), second); }
      var batch := FirstOf(Due(delayed, second), MOVE_BATCH);
      if !AllDecode(Keys(batch)) { return false; }
      AddToMainQueue(PayloadSeq(Keys(batch)));
      delayed := RemoveEach(delayed, batch);
      moved := true;
    }
  }

  /** Entries `es` are handed out at `now`: they are pending since then, and the last one is the group's last. */
  ghost predicate HandsOut(s: Streams, s': Streams, es: seq<P.Entry>, now: nat) {
    && s'.lastRead == (if es == [] then s.lastRead else es[|es| - 1].id)
    && (forall id :: id in s'.pending <==> id in s.pending || exists e :: e in es && e.id == id)
    && (forall e | e in es :: s'.pending[e.id] == now)
    && (forall id | id in s.pending && forall e | e in es :: e.id != id :: s'.pending[id] == s.pending[id])
    && s' == s.(lastRead := s'.lastRead, pending := s'.pending)
  }

  lemma HandedOut(s: Streams, max: nat, now: nat)
    ensures HandsOut(s, ReadOp(s, max, now), P.Unread(s.stream, s.lastRead, max), now)
  {
    hide P.Unread;
    var es := P.Unread(s.stream, s.lastRead, max);
    forall id ensures id in P.IdSet(es) <==> exists e :: e in es && e.id == id { IdSetMember(es, id); }
  }

  lemma ClaimHandsOut(pending: map<nat, nat>, batch: seq<P.Entry>, now: nat)
    ensures var p := P.HandOut(pending, batch, now); forall e | e in batch :: e.id in p && p[e.id] == now
  {
    forall e | e in batch ensures e.id in P.IdSet(batch) { IdSetMember(batch, e.id); }
  }

  lemma VisitNothing(limit: Limit, stream: seq<P.Entry>)
    ensures Visit(limit, stream, []) == ([], true) && Retried(limit, []) == []
  {
  }

  lemma VisitNext(limit: Limit, stream: seq<P.Entry>, batch: seq<P.Entry>)
    requires batch != []
    ensures var (e, rest) := (batch[0], batch[1..]);
            Visit(limit, stream, batch) ==
            if !P.Readable(e) then ([], false)
            else if !AtLimit(limit, e.count + 1) then Visit(limit, stream, rest)
            else if P.BodyOf(stream, e.id) == None then ([], false)
            else ([P.BodyOf(stream, e.id).value] + Visit(limit, stream, rest).0, Visit(limit, stream, rest).1)
    ensures Retried(limit, batch)
         == (if AtLimit(limit, batch[0].count + 1) then [] else [batch[0]]) + Retried(limit, batch[1..])
  {
  }

  /** `RedisStreamsAcker` */
  class Acker {
    const id: nat
    const receives: nat
    const limit: Limit
    var settled: bool

    constructor (id: nat, receives: nat, limit: Limit)
      ensures this.id == id && this.receives == receives && this.limit == limit && !settled
    {
      this.id, this.receives, this.limit, settled := id, receives, limit, false;
    }

    method Ack(server: Server) returns (r: Settled)
      modifies this, server`stream, server`pending
      ensures settled
      ensures old(settled) ==> r == CannotAckOrNackTwice && server.View() == old(server.View())
      ensures !old(settled) ==> r == Done && server.View() == AckOp(old(server.View()), id)
    {
      if settled { return CannotAckOrNackTwice; }
      server.pending := server.pending - {id};
      server.stream := P.XDel(server.stream, [id]);
      settled := true;
      r := Done;
    }

    /** At the limit the body is looked up first: if it is gone nothing changes, not even the flag. */
    method Nack(server: Server) returns (r: Settled)
      modifies this, server`stream, server`pending, server`dlq
      ensures var (dies, body) := (limit.Some? && receives >= limit.value, P.BodyOf(old(server.stream), id));
              && (r == NoData <==> dies && body == None)
              && server.dlq == old(server.dlq) + (if dies && body.Some? then [body.value] else [])
              && server.stream == (if dies && body.Some? && !old(settled) then P.XDel(old(server.stream), [id])
                                   else old(server.stream))
              && server.pending == (if dies && body.Some? && !old(settled) then old(server.pending) - {id}
                                    else old(server.pending))
      ensures r == NoData ==> settled == old(settled)
      ensures r != NoData ==> settled && (r == Done <==> !old(settled))
      ensures !old(settled) ==> server.View() == NackOp(limit, old(server.View()), id, receives)
    {
      if AtLimit(limit, receives) {
        var body := P.BodyOf(server.stream, id);
        if body == None { return NoData; }
        server.dlq := server.dlq + [body.value];
        r := Ack(server);
        return;
      }
      if settled { return CannotAckOrNackTwice; }
      settled := true;
      r := Done;
    }
  }
}

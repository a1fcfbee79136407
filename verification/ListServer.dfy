/** The list backend as it runs: a server whose lists the producers, consumers and background tasks change in place. */
module ListServer {
  import opened Bytes
  import opened Codec
  import opened Ksuid
  import opened RedisLists
  import opened Retry
  import opened DelayedSet
  import opened DelayedKeys
  import opened FallbackQueue

  /** What `receive_with_timeout` comes to when the wait ends. */
  datatype Received =
    | NoData
    | Undecodable
    | Got(key: Bytes, payload: Bytes, receives: nat)

  datatype Settled = Done | CannotAckOrNackTwice

  datatype Moved = Busy | BadClock | BadKey | Passed(count: nat)

  /** Seconds the lock of the delayed mover lasts. */
  const LOCK_SECONDS: real := 5.0

  class Server {
    /** The identifiers the library will draw. */
    const draw: Draw
    var main: seq<Bytes>
    var processing: seq<Bytes>
    var delayed: seq<Member>
    var dlq: seq<Bytes>
    var drawn: nat
    /** When the lock of the delayed mover expires, if it is set. */
    var lock: Option<real>

    ghost function View(): Lists
      reads this
    {
      Lists(main, processing, delayed, dlq, drawn)
    }

    constructor (draw: Draw)
      ensures View() == Lists([], [], [], [], 0) && lock == None && this.draw == draw
    {
      this.draw := draw;
      main, processing, delayed, dlq, drawn, lock := [], [], [], [], 0, None;
    }

    method SendRaw(payload: Bytes)
      modifies this`main, this`drawn
      ensures View() == SendOp(draw, old(View()), payload)
    {
      main := [Encode(draw(drawn), 0, payload)] + main;
      drawn := drawn + 1;
    }

    method SendRawScheduled(payload: Bytes, now: real, delay: real) returns (sent: bool)
      modifies this`delayed, this`drawn
      ensures sent <==> now + delay >= 0.0
      ensures sent ==>
                var m := Member((now + delay).Floor, Encode(draw(old(drawn)), 0, payload));
                forall x :: x in delayed <==> x == m || (x in old(delayed) && x.key != m.key)
      ensures View() == if sent then ScheduleOp(draw, old(View()), payload, (now + delay).Floor) else old(View())
    {
      var score := UnixTimestamp(now + delay);
      if score == None { return false; }
      delayed := ZAdd(delayed, Member(score.value, Encode(draw(drawn), 0, payload)));
      drawn := drawn + 1;
      ZAddMembers(old(delayed), Member((now + delay).Floor, Encode(draw(old(drawn)), 0, payload)));
      sent := true;
    }

    /** A receive whose wait has ended: with a message at the pop end, or without any. */
    method ReceiveWithTimeout() returns (r: Received)
      modifies this`main, this`processing
      ensures View() == ReceiveOp(old(View()))
      ensures r == NoData <==> old(main) == []
      ensures old(main) != [] ==>
                var key := old(main)[|old(main)| - 1];
                match Decode(key)
                case Ok(payload, receives) => r == Got(key, payload, receives)
                case _ => r == Undecodable
    {
      if main == [] { return NoData; }
      var key := main[|main| - 1];
      main := main[..|main| - 1];
      processing := [key] + processing;
      match Decode(key)
      case Ok(payload, receives) => r := Got(key, payload, receives);
      case _ => r := Undecodable;
    }

    /** `reenqueue_timed_out_messages`; `cutoff` is the validity limit drawn for the current time. */
    method ReenqueueTimedOut(limit: Limit, cutoff: Bytes) returns (finished: bool)
      modifies this`main, this`processing, this`dlq, this`drawn
      ensures (View(), finished) == SweepOp(limit, draw, old(View()), cutoff)
    {
      hide Decode, Encode, Expired, RemoveFirst, AtLimit;
      var tail := LastOf(processing, 1);
      if tail == [] || !Expired(tail[0], cutoff) { return true; }
      var keys := LastOf(processing, SWEEP_BATCH);
      for i := 0 to |keys|
        invariant SweepBatch(limit, draw, View(), cutoff, keys[i..])
               == SweepBatch(limit, draw, old(View()), cutoff, keys)
        invariant SweepOp(limit, draw, old(View()), cutoff) == SweepBatch(limit, draw, old(View()), cutoff, keys)
      {
        var key := keys[i];
        assert keys[i..][1..] == keys[i + 1..];
        if Expired(key, cutoff) {
          var decoded := Decode(key);
          if !decoded.Ok? { return false; }
          if AtLimit(limit, decoded.receives) {
            dlq := dlq + [decoded.payload];
          } else {
            main := main + [Encode(draw(drawn), decoded.receives, decoded.payload)];
            drawn := drawn + 1;
          }
          processing := RemoveFirst(processing, key);
        }
      }
      finished := true;
    }

    /**
     * `redrive_dlq`: unsupported without a dead-letter configuration. Otherwise the list ends up empty and its
     * bodies are popped from main after everything that was there, in order, with counts reset; of the rounds of 51
     * only their number shows.
     */
    method RedriveDlq(limit: Limit) returns (supported: bool, ghost rounds: nat)
      modifies this`main, this`dlq, this`drawn
      ensures supported <==> limit.Some?
      ensures rounds == if supported then (|old(dlq)| + 50) / 51 else 0
      ensures View() == if supported then RedriveOp(draw, old(View())) else old(View())
      ensures supported ==> dlq == [] && Reverse(main) == Reverse(old(main)) + Fresh(draw, old(drawn), old(dlq))
    {
      hide Fresh, Reverse, PushHeads;
      rounds := 0;
      if limit.None? { return false, rounds; }
      while dlq != []
        invariant rounds + (|dlq| + 50) / 51 == (|old(dlq)| + 50) / 51
        invariant RedriveOp(draw, View()) == RedriveOp(draw, old(View()))
        decreases |dlq|
      {
        ghost var before := View();
        var batch := FirstOf(dlq, REDRIVE_BATCH);
        ghost var rest := dlq[|batch|..];
        assert dlq == batch + rest;
        main := PushHeads(main, Fresh(draw, drawn, batch));
        drawn := drawn + |batch|;
        for j := 0 to |batch|
          invariant dlq == batch[j..] + rest
          invariant main == PushHeads(before.main, Fresh(draw, before.drawn, batch)) && drawn == before.drawn + |batch|
          invariant processing == before.processing && delayed == before.delayed
        {
          assert (batch[j..] + rest)[1..] == batch[j + 1..] + rest;
          dlq := RemoveFirst(dlq, batch[j]);
        }
        RedriveBatches(draw, before, View(), batch, rest);
        rounds := rounds + 1;
      }
      RedriveNothing(draw, View());
      PushOrder(old(main), Fresh(draw, old(drawn), old(dlq)));
      supported := true;
    }

    /** One pass of `background_task_delayed`. An error leaves the lock to expire. */
    method MoveDue(now: real) returns (r: Moved)
      modifies this`main, this`delayed, this`drawn, this`lock
      ensures r == Busy <==> old(lock).Some? && now < old(lock).value
      ensures r == Busy ==> View() == old(View()) && lock == old(lock)
      ensures r == BadClock ==> now < 1.0 && View() == old(View())
      ensures r == BadClock || r == BadKey ==> lock == Some(now + 5.0)
      ensures r.Passed? ==> lock == None
      ensures r == BadKey || r.Passed? ==>
                now >= 1.0 && (View(), r.Passed?) == MoveOp(draw, old(View()), (now - 1.0).Floor)
      ensures r.Passed? && Sorted(old(delayed)) ==>
                var due := |set m | m in old(delayed) && m.score <= (now - 1.0).Floor|;
                && r.count == (if due < 50 then due else 50) <= |old(delayed)| && delayed == old(delayed)[r.count..]
                && Reverse(main)
                   == Reverse(old(main)) + Fresh(draw, old(drawn), PayloadSeq(Keys(old(delayed)[..r.count])))
    {
      hide MoveOp, MoveBatch, PushHeads, RemoveEach, Fresh, PayloadSeq, Keys, Due, AllDecode, FirstOf;
      if lock.Some? && now < lock.value { return Busy; }
      lock := Some(now + LOCK_SECONDS);
      var second := UnixTimestamp(now - 1.0);
      if second == None { return BadClock; }
      var batch := FirstOf(Due(delayed, second.value), MOVE_BATCH);
      MoveIs(draw, View(), second.value);
      if Sorted(delayed) { PassTakesDue(draw, View(), second.value); }
      if !AllDecode(Keys(batch)) { return BadKey; }
      main := PushHeads(main, Fresh(draw, drawn, PayloadSeq(Keys(batch))));
      drawn := drawn + |batch|;
      delayed := RemoveEach(delayed, batch);
      lock := None;
      r := Passed(|batch|);
    }
  }

  lemma MoveIs(draw: Draw, l: Lists, second: nat)
    ensures var batch := FirstOf(Due(l.delayed, second), MOVE_BATCH);
            MoveOp(draw, l, second)
            == if !AllDecode(Keys(batch)) then (l, false)
               else (l.(main := PushHeads(l.main, Fresh(draw, l.drawn, PayloadSeq(Keys(batch)))),
                        delayed := RemoveEach(l.delayed, batch), drawn := l.drawn + |batch|), true)
  {
  }

  /** `RedisFallbackAcker` */
  class Acker {
    const key: Bytes
    const receives: nat
    const limit: Limit
    var settled: bool

    constructor (key: Bytes, receives: nat, limit: Limit)
      ensures this.key == key && this.receives == receives && this.limit == limit && !settled
    {
      this.key, this.receives, this.limit, settled := key, receives, limit, false;
    }

    method Ack(server: Server) returns (r: Settled)
      modifies this, server`processing
      ensures settled
      ensures old(settled) ==> r == CannotAckOrNackTwice && server.View() == old(server.View())
      ensures !old(settled) ==> r == Done && server.View() == AckOp(old(server.View()), key)
    {
      if settled { return CannotAckOrNackTwice; }
      server.processing := RemoveFirst(server.processing, key);
      settled := true;
      r := Done;
    }

    /** At the limit the dead-letter push comes before the check of the flag, so a second `nack` pushes again. */
    method Nack(server: Server) returns (r: Settled)
      modifies this, server`processing, server`dlq
      ensures settled && (r == Done <==> !old(settled))
      ensures var dies := limit.Some? && receives >= limit.value;
              && server.dlq == old(server.dlq) + (if dies then [DeadLetterBody(key)] else [])
              && server.processing == if dies && !old(settled) then RemoveFirst(old(server.processing), key)
                                      else old(server.processing)
      ensures !old(settled) ==> server.View() == NackOp(limit, old(server.View()), key, receives)
    {
      if AtLimit(limit, receives) {
        server.dlq := server.dlq + [DeadLetterBody(key)];
        r := Ack(server);
        return;
      }
      if settled { return CannotAckOrNackTwice; }
      settled := true;
      r := Done;
    }
  }
}

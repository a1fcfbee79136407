/** No interleaving of the list protocol loses a message. */
module FallbackConservation {
  import opened Bytes
  import opened Codec
  import opened RedisLists
  import opened Retry
  import opened FallbackProtocol

  /** The copies of messages in the four stores. */
  function Copies(s: State): multiset<Bytes> {
    Payloads(s.main) + Payloads(s.processing) + Payloads(s.delayed) + multiset(s.dlq)
  }

  function Owed(procs: seq<Proc>): multiset<Bytes> {
    if procs == [] then multiset{} else Owes(procs[0]) + Owed(procs[1..])
  }

  ghost predicate Balanced(s: State) {
    forall x :: BalancedAt(s, x)
  }

  /** A delivery exists only for a key that decodes, and carries the count read from it. */
  ghost predicate DeliveriesDecode(s: State) {
    forall w | 0 <= w < |s.procs| :: DeliveryDecodes(s.procs[w])
  }

  ghost predicate DeliveryDecodes(p: Proc) {
    (p.Delivered? || p.NackRemoving?) ==> Decode(p.key) == Ok(PayloadOf(p.key), p.receives)
  }

  ghost predicate Inv(s: State) { Balanced(s) && DeliveriesDecode(s) }

  lemma {:induction false} OwedAfterPut(procs: seq<Proc>, w: nat, p: Proc)
    requires w < |procs|
    ensures Owed(procs[w := p]) + Owes(procs[w]) == Owed(procs) + Owes(p)
  {
    hide Owes;
    if w == 0 {
      assert procs[w := p][1..] == procs[1..];
    } else {
      assert procs[w := p][1..] == procs[1..][w - 1 := p];
      OwedAfterPut(procs[1..], w - 1, p);
      assert procs[w := p][0] == procs[0] && procs[1..][w - 1] == procs[w];
      var a, b := Owed(procs[1..][w - 1 := p]), Owed(procs[1..]);
      assert (Owes(procs[0]) + a) + Owes(procs[w]) == Owes(procs[0]) + (a + Owes(procs[w]));
    }
  }

  lemma {:induction false} OwedAfterSpawn(procs: seq<Proc>)
    ensures Owed(procs + [Idle]) == Owed(procs)
  {
    if procs == [] {
      assert (procs + [Idle])[1..] == [];
    } else {
      assert (procs + [Idle])[1..] == procs[1..] + [Idle];
      OwedAfterSpawn(procs[1..]);
    }
  }

  lemma PayloadsCons(key: Key, keys: seq<Key>)
    ensures Payloads([key] + keys) == multiset{PayloadOf(key)} + Payloads(keys)
  {
    assert ([key] + keys)[1..] == keys;
  }

  lemma PayloadsSnoc(keys: seq<Key>, key: Key)
    ensures Payloads(keys + [key]) == Payloads(keys) + multiset{PayloadOf(key)}
  {
    PayloadsConcat(keys, [key]);
    PayloadsSingle(key);
  }

  /** The copies of one payload. */
  function Held(s: State, x: Bytes): nat {
    Payloads(s.main)[x] + Payloads(s.processing)[x] + Payloads(s.delayed)[x] + multiset(s.dlq)[x]
  }

  ghost predicate BalancedAt(s: State, x: Bytes) {
    s.sent[x] + Owed(s.procs)[x] + s.surplus[x] == Held(s, x) + s.acked[x]
  }

  /** Balance is kept when what a process starts to owe, or leaves behind, matches the copies made and removed. */
  lemma Rebalance(s: State, s': State, w: nat, x: Bytes)
    requires BalancedAt(s, x) && w < |s.procs| == |s'.procs| && s'.procs == s.procs[w := s'.procs[w]]
    requires s'.sent == s.sent
    requires Owes(s'.procs[w])[x] + s'.surplus[x] + Held(s, x) + s.acked[x]
          == Owes(s.procs[w])[x] + s.surplus[x] + Held(s', x) + s'.acked[x]
    ensures BalancedAt(s', x)
  {
    OwedAfterPut(s.procs, w, s'.procs[w]);
    assert (Owed(s'.procs) + Owes(s.procs[w]))[x] == (Owed(s.procs) + Owes(s'.procs[w]))[x];
  }

  // ----- one lemma per command -----

  lemma SendKeeps(s: State, id: Bytes, payload: Bytes, rank: nat, x: Bytes)
    requires BalancedAt(s, x)
    ensures BalancedAt(SendStep(s, id, payload), x) && BalancedAt(SendScheduledStep(s, id, payload, rank), x)
  {
    if Fresh(s, id) {
      var key := Encode(id, 0, payload);
      EncodeHasForm(id, 0, payload);
      PayloadsCons(key, s.main);
      if rank <= |s.delayed| {
        var (a, b) := (s.delayed[..rank], s.delayed[rank..]);
        assert s.delayed == a + b;
        PayloadsConcat(a, b);
        PayloadsConcat(a + [key], b);
        PayloadsSnoc(a, key);
      }
    }
  }

  lemma ReceiveKeeps(s: State, w: nat, x: Bytes)
    requires BalancedAt(s, x) && w < |s.procs|
    ensures BalancedAt(ReceiveStep(s, w), x)
  {
    if s.main != [] && s.procs[w] == Idle {
      var n := |s.main| - 1;
      assert s.main == s.main[..n] + [s.main[n]];
      PayloadsSnoc(s.main[..n], s.main[n]);
      PayloadsCons(s.main[n], s.processing);
      Rebalance(s, ReceiveStep(s, w), w, x);
    }
  }

  lemma AckKeeps(s: State, w: nat, replyLost: bool, x: Bytes)
    requires BalancedAt(s, x) && w < |s.procs|
    ensures BalancedAt(AckStep(s, w, replyLost), x)
  {
    hide Payloads, PayloadOf, RemoveFirst, Owed;
    var p := s.procs[w];
    if p.Delivered? && !p.settled {
      PayloadsRemoveFirst(s.processing, p.key);
      var before, after := Payloads(s.processing), Payloads(RemoveFirst(s.processing, p.key));
      assert (after + multiset{PayloadOf(p.key)})[x] == (before + MissedOne(s.processing, p.key))[x];
      Rebalance(s, AckStep(s, w, replyLost), w, x);
    }
  }

  lemma NackKeeps(dlq: Limit, s: State, w: nat, x: Bytes)
    requires BalancedAt(s, x) && w < |s.procs| && DeliveryDecodes(s.procs[w])
    ensures BalancedAt(NackStep(dlq, s, w), x) && BalancedAt(NackFailsStep(s, w), x)
  {
    hide Payloads, PayloadOf, Decode;
    var p := s.procs[w];
    if p.Delivered? {
      Rebalance(s, NackStep(dlq, s, w), w, x);
    } else if p.NackRemoving? {
      Rebalance(s, NackFailsStep(s, w), w, x);
    }
  }

  lemma NackRemoveKeeps(s: State, w: nat, replyLost: bool, x: Bytes)
    requires BalancedAt(s, x) && w < |s.procs|
    ensures BalancedAt(NackRemoveStep(s, w, replyLost), x)
  {
    var p := s.procs[w];
    if p.NackRemoving? { RemovalKeeps(s, NackRemoveStep(s, w, replyLost), w, p.key, x); }
  }

  /** An LREM on processing for a copy already made, or a removal that is given up. */
  lemma RemovalKeeps(s: State, s': State, w: nat, key: Key, x: Bytes)
    requires BalancedAt(s, x) && w < |s.procs| && Owes(s.procs[w]) == multiset{PayloadOf(key)}
    requires |s'.procs| == |s.procs| && s'.procs == s.procs[w := s'.procs[w]] && Owes(s'.procs[w]) == multiset{}
    requires s'.sent == s.sent && s'.acked == s.acked
    requires s'.main == s.main && s'.delayed == s.delayed && s'.dlq == s.dlq
    requires (s'.processing == s.processing && s'.surplus == s.surplus + multiset{PayloadOf(key)})
          || (s'.processing == RemoveFirst(s.processing, key) && s'.surplus == s.surplus + MissedOne(s.processing, key))
    ensures BalancedAt(s', x)
  {
    PayloadsRemoveFirst(s.processing, key);
    var before, after := Payloads(s.processing), Payloads(RemoveFirst(s.processing, key));
    assert (after + multiset{PayloadOf(key)})[x] == (before + MissedOne(s.processing, key))[x];
    Rebalance(s, s', w, x);
  }

  lemma SweepVisitKeeps(dlq: Limit, s: State, w: nat, id: Bytes, x: Bytes)
    requires BalancedAt(s, x) && w < |s.procs|
    ensures BalancedAt(SweepVisitStep(dlq, s, w, id), x)
  {
    hide Payloads, PayloadOf, Decode, AtMost, Owed;
    var p := s.procs[w];
    if p.Sweeping? {
      if p.batch != [] && AtMost(p.batch[0], p.limit) && Decode(p.batch[0]).Ok? {
        SweepPushKeeps(dlq, s, w, id, x);
      } else {
        QuietKeeps(s, w, SweepVisitStep(dlq, s, w, id).procs[w], x);
      }
    }
  }

  lemma SweepPushKeeps(dlq: Limit, s: State, w: nat, id: Bytes, x: Bytes)
    requires BalancedAt(s, x) && w < |s.procs| && s.procs[w].Sweeping? && s.procs[w].batch != []
    requires AtMost(s.procs[w].batch[0], s.procs[w].limit) && Decode(s.procs[w].batch[0]).Ok?
    ensures BalancedAt(SweepVisitStep(dlq, s, w, id), x)
  {
    hide Payloads, PayloadOf, Decode, Encode, HasForm, IdOf, CountOf, ValidId, AtMost, Owed;
    var key := s.procs[w].batch[0];
    if AtLimit(dlq, Decode(key).receives) {
      DecodedPayload(key);
      Rebalance(s, SweepVisitStep(dlq, s, w, id), w, x);
    } else if Fresh(s, id) {
      CopyPush(s.main, id, key);
      Rebalance(s, SweepVisitStep(dlq, s, w, id), w, x);
    }
  }

  lemma CopyPush(main: seq<Key>, id: Bytes, key: Key)
    requires ValidId(id) && Decode(key).Ok?
    ensures Payloads(main + [Encode(id, Decode(key).receives, Decode(key).payload)])
         == Payloads(main) + multiset{PayloadOf(key)}
  {
    var Ok(payload, n) := Decode(key);
    DecodedPayload(key);
    EncodeHasForm(id, n, payload);
    PayloadsSnoc(main, Encode(id, n, payload));
  }

  lemma SweepRemoveKeeps(s: State, w: nat, x: Bytes)
    requires BalancedAt(s, x) && w < |s.procs|
    ensures BalancedAt(SweepRemoveStep(s, w), x)
  {
    var p := s.procs[w];
    if p.SweepRemoving? && p.batch != [] { RemovalKeeps(s, SweepRemoveStep(s, w), w, p.batch[0], x); }
  }

  lemma MovePushKeeps(s: State, w: nat, ids: seq<Bytes>, x: Bytes)
    requires BalancedAt(s, x) && w < |s.procs|
    ensures BalancedAt(MovePushStep(s, w, ids), x)
  {
    hide Payloads, PayloadOf, PayloadSeq, FreshKeys, PushHeads, Encode, ValidId;
    var p := s.procs[w];
    if p.Moving? && FreshBatch(s, ids) && |ids| == |p.batch| {
      PayloadsOfFreshKeys(ids, PayloadSeq(p.batch));
      PayloadsAreTheSeq(p.batch);
      PayloadsPushHeads(s.main, FreshKeys(ids, PayloadSeq(p.batch)));
      Rebalance(s, MovePushStep(s, w, ids), w, x);
    }
  }

  lemma MoveRemoveKeeps(s: State, w: nat, x: Bytes)
    requires BalancedAt(s, x) && w < |s.procs|
    ensures BalancedAt(MoveRemoveStep(s, w), x)
  {
    var p := s.procs[w];
    if p.MoveRemoving? {
      PayloadsRemoveEach(s.delayed, p.batch);
      assert (Payloads(RemoveEach(s.delayed, p.batch)) + Payloads(p.batch))[x]
          == (Payloads(s.delayed) + Missed(s.delayed, p.batch))[x];
      Rebalance(s, MoveRemoveStep(s, w), w, x);
    }
  }

  lemma RedrivePushKeeps(s: State, w: nat, ids: seq<Bytes>, x: Bytes)
    requires BalancedAt(s, x) && w < |s.procs|
    ensures BalancedAt(RedrivePushStep(s, w, ids), x)
  {
    hide Payloads, PayloadOf, FreshKeys, PushHeads, Encode, ValidId, Owed, NoDup;
    var p := s.procs[w];
    if p.Redriving? && FreshBatch(s, ids) && |ids| == |p.bodies| {
      var s' := RedrivePushStep(s, w, ids);
      BatchPush(s.main, ids, p.bodies, x);
      assert Held(s', x) == Held(s, x) + multiset(p.bodies)[x];
      Rebalance(s, s', w, x);
    }
  }

  lemma BatchPush(main: seq<Key>, ids: seq<Bytes>, bodies: seq<Bytes>, x: Bytes)
    requires |ids| == |bodies| && forall i | 0 <= i < |ids| :: ValidId(ids[i])
    ensures Payloads(PushHeads(main, FreshKeys(ids, bodies)))[x] == Payloads(main)[x] + multiset(bodies)[x]
  {
    PayloadsOfFreshKeys(ids, bodies);
    PayloadsPushHeads(main, FreshKeys(ids, bodies));
  }

  lemma RedriveRemoveKeeps(s: State, w: nat, x: Bytes)
    requires BalancedAt(s, x) && w < |s.procs|
    ensures BalancedAt(RedriveRemoveStep(s, w), x)
  {
    hide Payloads, PayloadOf, RemoveFirst, Owed, BalancedAt;
    var p := s.procs[w];
    if p.RedriveRemoving? {
      if p.bodies == [] {
        Rebalance(s, RedriveRemoveStep(s, w), w, x);
      } else {
        var s' := RedriveRemoveStep(s, w);
        BodyRemoval(s.dlq, p.bodies, x);
        assert Owes(s'.procs[w]) == multiset(p.bodies[1..]);
        Rebalance(s, s', w, x);
      }
    }
  }

  lemma SweepReadsKeep(s: State, w: nat, limit: Bytes, x: Bytes)
    requires BalancedAt(s, x) && w < |s.procs|
    ensures BalancedAt(SweepPeekStep(s, w, limit), x) && BalancedAt(SweepReadStep(s, w), x)
  {
    hide Owed, AtMost, BalancedAt, LastOf;
    if SweepPeekStep(s, w, limit) != s { QuietKeeps(s, w, SweepPeeked(limit), x); }
    if SweepReadStep(s, w) != s { QuietKeeps(s, w, SweepReadStep(s, w).procs[w], x); }
  }

  lemma BatchReadsKeep(dlq: Limit, s: State, w: nat, batch: seq<Key>, x: Bytes)
    requires BalancedAt(s, x) && w < |s.procs|
    ensures BalancedAt(MoveReadStep(s, w, batch), x) && BalancedAt(RedriveReadStep(dlq, s, w), x)
  {
    hide Owed, AllDecode, MoveReply, BalancedAt, FirstOf;
    if MoveReadStep(s, w, batch) != s { QuietKeeps(s, w, MoveReadStep(s, w, batch).procs[w], x); }
    if RedriveReadStep(dlq, s, w) != s { QuietKeeps(s, w, Redriving(FirstOf(s.dlq, REDRIVE_BATCH)), x); }
  }

  lemma QuietKeeps(s: State, w: nat, p: Proc, x: Bytes)
    requires BalancedAt(s, x) && w < |s.procs| && Owes(s.procs[w]) == Owes(p)
    ensures BalancedAt(Put(s, w, p), x)
  {
    Rebalance(s, Put(s, w, p), w, x);
  }

  lemma StopKeeps(s: State, w: nat, x: Bytes)
    requires BalancedAt(s, x) && w < |s.procs|
    ensures BalancedAt(StopStep(s, w), x)
  {
    Rebalance(s, StopStep(s, w), w, x);
  }

  lemma ActionKeeps(dlq: Limit, s: State, w: nat, a: Action, x: Bytes)
    requires BalancedAt(s, x) && w < |s.procs| && DeliveryDecodes(s.procs[w])
    ensures BalancedAt(ActionStep(dlq, s, w, a), x)
  {
    hide StopStep, ReceiveStep, AckStep, NackStep, NackFailsStep, NackRemoveStep, SweepPeekStep, SweepReadStep,
         SweepVisitStep, SweepRemoveStep, MoveReadStep, MovePushStep, MoveRemoveStep, RedriveReadStep,
         RedrivePushStep, RedriveRemoveStep, BalancedAt, DeliveryDecodes;
    match a
    case Stop => StopKeeps(s, w, x);
    case Receive => ReceiveKeeps(s, w, x);
    case Ack(replyLost) => AckKeeps(s, w, replyLost, x);
    case Nack => NackKeeps(dlq, s, w, x);
    case NackFails => NackKeeps(dlq, s, w, x);
    case NackRemove(replyLost) => NackRemoveKeeps(s, w, replyLost, x);
    case SweepPeek(limit) => SweepReadsKeep(s, w, limit, x);
    case SweepRead => SweepReadsKeep(s, w, [], x);
    case SweepVisit(id) => SweepVisitKeeps(dlq, s, w, id, x);
    case SweepRemove => SweepRemoveKeeps(s, w, x);
    case MoveRead(batch) => BatchReadsKeep(dlq, s, w, batch, x);
    case MovePush(ids) => MovePushKeeps(s, w, ids, x);
    case MoveRemove => MoveRemoveKeeps(s, w, x);
    case RedriveRead => BatchReadsKeep(dlq, s, w, [], x);
    case RedrivePush(ids) => RedrivePushKeeps(s, w, ids, x);
    case RedriveRemove => RedriveRemoveKeeps(s, w, x);
  }

  lemma ActionKeepsDecoding(dlq: Limit, s: State, w: nat, a: Action)
    requires w < |s.procs| && DeliveryDecodes(s.procs[w])
    ensures var s' := ActionStep(dlq, s, w, a);
            |s'.procs| == |s.procs| && s'.procs == s.procs[w := s'.procs[w]] && DeliveryDecodes(s'.procs[w])
  {
    hide Decode, PayloadOf, Payloads, Encode, RemoveFirst, RemoveEach, PushHeads, AtMost, Missed, FreshKeys,
         PayloadSeq, MissedOne, NoDup, Owes, AtLimit, AllDecode, MoveReply, FreshBatch, LastOf, FirstOf, DeadLetterBody;
    if a.Receive? && s.main != [] && Decode(s.main[|s.main| - 1]).Ok? {
      DecodedPayload(s.main[|s.main| - 1]);
    }
  }

  lemma EventKeeps(dlq: Limit, s: State, e: Event, x: Bytes)
    requires Inv(s)
    ensures BalancedAt(Step(dlq, s, e), x)
  {
    hide ActionStep, SendStep, SendScheduledStep, Owed, Payloads;
    assert BalancedAt(s, x);
    match e
    case Spawn => OwedAfterSpawn(s.procs);
    case Send(id, payload) => SendKeeps(s, id, payload, 0, x);
    case SendScheduled(id, payload, rank) => SendKeeps(s, id, payload, rank, x);
    case By(w, a) => if w < |s.procs| { ActionKeeps(dlq, s, w, a, x); }
  }

  lemma StepKeeps(dlq: Limit, s: State, e: Event)
    requires Inv(s)
    ensures Inv(Step(dlq, s, e))
  {
    hide ActionStep, BalancedAt, Decode, Encode;
    forall x ensures BalancedAt(Step(dlq, s, e), x) { EventKeeps(dlq, s, e, x); }
    if e.By? && e.w < |s.procs| { ActionKeepsDecoding(dlq, s, e.w, e.action); }
  }

  lemma {:induction false} RunKeeps(dlq: Limit, es: seq<Event>)
    ensures Inv(Run(dlq, es))
  {
    if es != [] {
      RunKeeps(dlq, es[..|es| - 1]);
      StepKeeps(dlq, Run(dlq, es[..|es| - 1]), es[|es| - 1]);
    }
  }

  // ----- what it means for callers -----

  /**
   * Conservation over every run: the copies in the stores and those removed by an ack are exactly the sent ones,
   * the copies made ahead of a removal still to come, and the copies whose original nobody will remove any more.
   */
  lemma Conservation(dlq: Limit, es: seq<Event>)
    ensures var s := Run(dlq, es);
            s.sent + Owed(s.procs) + s.surplus == Copies(s) + s.acked
  {
    RunKeeps(dlq, es);
    var s := Run(dlq, es);
    forall x ensures (s.sent + Owed(s.procs) + s.surplus)[x] == (Copies(s) + s.acked)[x] {
      assert BalancedAt(s, x);
    }
  }

  /** No loss: a payload sent more often than acks removed it is still in a store, whoever stopped where. */
  lemma NoLoss(dlq: Limit, es: seq<Event>, payload: Bytes)
    ensures var s := Run(dlq, es);
            Copies(s)[payload] + s.acked[payload] >= s.sent[payload] + Owed(s.procs)[payload]
    ensures var s := Run(dlq, es);
            s.sent[payload] > s.acked[payload] ==> payload in Copies(s)
  {
    Conservation(dlq, es);
    var s := Run(dlq, es);
    assert (Copies(s) + s.acked)[payload] == (s.sent + Owed(s.procs) + s.surplus)[payload];
  }

  /** The branch of `nack` that dead-letters a whole key is never taken. */
  lemma NackSendsThePayload(dlq: Limit, es: seq<Event>, w: nat)
    requires w < |Run(dlq, es).procs| && Run(dlq, es).procs[w].Delivered?
    ensures var key := Run(dlq, es).procs[w].key;
            Decode(key).Ok? && DeadLetterBody(key) == PayloadOf(key)
  {
    RunKeeps(dlq, es);
    assert DeliveryDecodes(Run(dlq, es).procs[w]);
  }
}

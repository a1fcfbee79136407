/**
 * What the keys of the list protocol look like in every reachable state, and how often a message is delivered:
 * each requeued key is a copy of one popped before, so keys form chains whose counts go up by one per delivery.
 */
module FallbackLineage {
  import opened Bytes
  import opened Codec
  import opened RedisLists
  import opened Retry
  import opened FallbackProtocol
  import C = FallbackConservation

  /** A key some process wrote: it can be read back, its count is at most `n` and below the retry limit. */
  ghost predicate Written(dlq: Limit, used: set<Bytes>, n: nat, key: Key) {
    && HasForm(key) && IdOf(key) in used && CountOf(key) <= n
    && (dlq.Some? && CountOf(key) > 0 ==> CountOf(key) < dlq.value)
  }

  ghost predicate AllWritten(dlq: Limit, used: set<Bytes>, n: nat, keys: seq<Key>) {
    forall k | k in keys :: Written(dlq, used, n, k)
  }

  ghost predicate Within(keys: seq<Key>, all: seq<Key>) {
    forall k | k in keys :: k in all
  }

  /** The keys a process remembers, all of them popped before. */
  function Remembers(p: Proc): seq<Key> {
    match p
    case Sweeping(_, batch) => batch
    case SweepRemoving(_, batch) => batch
    case Delivered(key, _, _) => [key]
    case NackRemoving(key, _, _) => [key]
    case _ => []
  }

  /** No key is in main and popped, or in either of them twice. */
  ghost predicate Once(s: State) {
    forall k :: multiset(s.main)[k] + multiset(s.popped)[k] <= 1
  }

  /** A requeued key carries one receive more than the popped key it copies; any other key carries none. */
  ghost predicate Linked(s: State) {
    && (forall c | c in s.parent :: s.parent[c] in s.popped && CountOf(c) == CountOf(s.parent[c]) + 1)
    && (forall k | k in s.main || k in s.popped :: k in s.parent || CountOf(k) == 0)
  }

  ghost predicate KeysWritten(dlq: Limit, s: State, n: nat) {
    && AllWritten(dlq, s.used, n, s.main) && AllWritten(dlq, s.used, n, s.popped)
    && AllWritten(dlq, s.used, n, s.delayed) && Within(s.processing, s.popped)
  }

  ghost predicate Memories(s: State) {
    forall w | 0 <= w < |s.procs| :: Within(Remembers(s.procs[w]), s.popped)
  }

  ghost predicate Lineage(dlq: Limit, s: State, n: nat) {
    KeysWritten(dlq, s, n) && Once(s) && Linked(s) && Memories(s)
  }

  // ----- small steps -----

  lemma WrittenAfter(dlq: Limit, used: set<Bytes>, used': set<Bytes>, n: nat, n': nat, keys: seq<Key>)
    requires AllWritten(dlq, used, n, keys) && used <= used' && n <= n'
    ensures AllWritten(dlq, used', n', keys)
  {
    hide HasForm, IdOf, CountOf;
  }

  /** A batch of keys with fresh identifiers: written, with count 0, pairwise distinct, unlike any older key. */
  lemma FreshKeysAreNew(dlq: Limit, s: State, ids: seq<Bytes>, bodies: seq<Bytes>, n: nat)
    requires |ids| == |bodies| && FreshBatch(s, ids)
    ensures var keys := FreshKeys(ids, bodies);
            && AllWritten(dlq, s.used + (set id | id in ids), n, keys)
            && (forall k | k in keys :: CountOf(k) == 0 && IdOf(k) !in s.used)
            && NoDup(keys)
  {
    hide HasForm, IdOf, CountOf, Encode;
    var keys := FreshKeys(ids, bodies);
    forall i | 0 <= i < |keys|
      ensures HasForm(keys[i]) && IdOf(keys[i]) == ids[i] && CountOf(keys[i]) == 0 && IdOf(keys[i]) !in s.used
    {
      assert Fresh(s, ids[i]);
      EncodeHasForm(ids[i], 0, bodies[i]);
    }
    forall i, j | 0 <= i < j < |keys| ensures keys[i] != keys[j] {
      assert IdOf(keys[i]) == ids[i] && IdOf(keys[j]) == ids[j];
    }
  }

  /** Pushing new keys on either end of main. */
  lemma PushKeeps(dlq: Limit, s: State, s': State, n: nat, keys: seq<Key>)
    requires KeysWritten(dlq, s, n) && Once(s) && NoDup(keys) && s.used <= s'.used
    requires s'.main == PushHeads(s.main, keys) || s'.main == s.main + keys
    requires AllWritten(dlq, s'.used, n + 1, keys) && forall k | k in keys :: IdOf(k) !in s.used
    requires s'.popped == s.popped && s'.processing == s.processing && s'.delayed == s.delayed
    ensures KeysWritten(dlq, s', n + 1) && Once(s')
    ensures forall k :: k in s'.main <==> k in s.main || k in keys
  {
    hide HasForm, IdOf, CountOf;
    PushHeadsReversed(s.main, keys);
    forall k ensures k in s'.main <==> k in s.main || k in keys { PushHeadsMember(s.main, keys, k); }
    WrittenAfter(dlq, s.used, s'.used, n, n + 1, s.main);
    WrittenAfter(dlq, s.used, s'.used, n, n + 1, s.popped);
    WrittenAfter(dlq, s.used, s'.used, n, n + 1, s.delayed);
    forall k ensures multiset(s'.main)[k] + multiset(s'.popped)[k] <= 1 {
      NoDupBag(keys, k);
      ReverseBag(keys);
      assert multiset(s'.main) == multiset(s.main) + multiset(keys);
      if k in keys {
        assert k !in s.main && k !in s.popped;
      }
    }
  }

  lemma {:induction false} ReverseBag<T>(s: seq<T>)
    ensures multiset(Reverse(s)) == multiset(s)
  {
    if s != [] {
      ReverseBag(s[1..]);
      assert s == [s[0]] + s[1..];
    }
  }

  /** A process that remembers popped keys only. */
  lemma MemoriesAfter(s: State, s': State, w: nat)
    requires Memories(s) && w < |s.procs| == |s'.procs| && s'.procs == s.procs[w := s'.procs[w]]
    requires Within(s.popped, s'.popped) && Within(Remembers(s'.procs[w]), s'.popped)
    ensures Memories(s')
  {
    forall v | 0 <= v < |s'.procs| ensures Within(Remembers(s'.procs[v]), s'.popped) {
      if v != w { assert s'.procs[v] == s.procs[v]; }
    }
  }

  // ----- the commands -----

  lemma SendKeeps(dlq: Limit, s: State, n: nat, id: Bytes, payload: Bytes, rank: nat)
    requires Lineage(dlq, s, n)
    ensures Lineage(dlq, SendStep(s, id, payload), n + 1)
    ensures Lineage(dlq, SendScheduledStep(s, id, payload, rank), n + 1)
  {
    hide HasForm, IdOf, CountOf, Encode;
    Later(dlq, s, n);
    if Fresh(s, id) {
      var key := Encode(id, 0, payload);
      EncodeHasForm(id, 0, payload);
      PushKeeps(dlq, s, SendStep(s, id, payload), n, [key]);
      WrittenAfter(dlq, s.used, s.used + {id}, n, n + 1, s.main);
      WrittenAfter(dlq, s.used, s.used + {id}, n, n + 1, s.popped);
      WrittenAfter(dlq, s.used, s.used + {id}, n, n + 1, s.delayed);
    }
  }

  /** A longer run allows more. */
  lemma Later(dlq: Limit, s: State, n: nat)
    requires Lineage(dlq, s, n)
    ensures Lineage(dlq, s, n + 1)
  {
    WrittenAfter(dlq, s.used, s.used, n, n + 1, s.main);
    WrittenAfter(dlq, s.used, s.used, n, n + 1, s.popped);
    WrittenAfter(dlq, s.used, s.used, n, n + 1, s.delayed);
  }

  lemma ReceiveKeeps(dlq: Limit, s: State, n: nat, w: nat)
    requires Lineage(dlq, s, n) && w < |s.procs|
    ensures Lineage(dlq, ReceiveStep(s, w), n + 1)
  {
    hide HasForm, IdOf, CountOf, Decode;
    Later(dlq, s, n);
    if s.main != [] && s.procs[w] == Idle {
      var s' := ReceiveStep(s, w);
      var m := |s.main| - 1;
      assert s.main == s.main[..m] + [s.main[m]];
      assert Once(s') by {
        forall k ensures multiset(s'.main)[k] + multiset(s'.popped)[k] <= 1 {
          assert multiset(s.main)[k] == multiset(s'.main)[k] + multiset{s.main[m]}[k];
        }
      }
      MemoriesAfter(s, s', w);
    }
  }

  /** Steps that write no key: they take keys away, or change what a process remembers. */
  lemma RemovalKeeps(dlq: Limit, s: State, s': State, n: nat, w: nat)
    requires Lineage(dlq, s, n) && w < |s.procs| == |s'.procs| && s'.procs == s.procs[w := s'.procs[w]]
    requires s'.main == s.main && s'.popped == s.popped && s'.parent == s.parent && s'.used == s.used
    requires Within(s'.processing, s.processing) && Within(s'.delayed, s.delayed)
    requires Within(Remembers(s'.procs[w]), s.popped)
    ensures Lineage(dlq, s', n + 1)
  {
    hide HasForm, IdOf, CountOf;
    Later(dlq, s, n);
    MemoriesAfter(s, s', w);
  }

  lemma WithinRemoval(keys: seq<Key>, xs: seq<Key>)
    ensures Within(RemoveEach(keys, xs), keys) && forall x :: Within(RemoveFirst(keys, x), keys)
  {
    forall k | k in RemoveEach(keys, xs) ensures k in keys { RemoveEachMember(keys, xs, k); }
    forall x, k | k in RemoveFirst(keys, x) ensures k in keys { RemoveFirstMember(keys, x, k); }
  }

  lemma AckKeeps(dlq: Limit, s: State, n: nat, w: nat, replyLost: bool)
    requires Lineage(dlq, s, n) && w < |s.procs|
    ensures Lineage(dlq, AckStep(s, w, replyLost), n + 1) && Lineage(dlq, NackRemoveStep(s, w, replyLost), n + 1)
  {
    hide Written, Once, Linked, RemoveFirst, PayloadOf, MissedOne;
    assert Within(Remembers(s.procs[w]), s.popped);
    WithinRemoval(s.processing, []);
    RemovalKeeps(dlq, s, AckStep(s, w, replyLost), n, w);
    RemovalKeeps(dlq, s, NackRemoveStep(s, w, replyLost), n, w);
  }

  lemma NackKeeps(dlq: Limit, s: State, n: nat, w: nat)
    requires Lineage(dlq, s, n) && w < |s.procs|
    ensures Lineage(dlq, NackStep(dlq, s, w), n + 1) && Lineage(dlq, NackFailsStep(s, w), n + 1)
  {
    hide Written, Once, Linked, PayloadOf, DeadLetterBody;
    assert Within(Remembers(s.procs[w]), s.popped);
    RemovalKeeps(dlq, s, NackStep(dlq, s, w), n, w);
    RemovalKeeps(dlq, s, NackFailsStep(s, w), n, w);
  }

  lemma ReadsKeep(dlq: Limit, s: State, n: nat, w: nat, limit: Bytes)
    requires Lineage(dlq, s, n) && w < |s.procs|
    ensures Lineage(dlq, SweepPeekStep(s, w, limit), n + 1) && Lineage(dlq, SweepReadStep(s, w), n + 1)
    ensures Lineage(dlq, SweepRemoveStep(s, w), n + 1) && Lineage(dlq, StopStep(s, w), n + 1)
  {
    hide Written, Once, Linked, RemoveFirst, MissedOne, AtMost, Owes;
    assert Within(Remembers(s.procs[w]), s.popped);
    WithinRemoval(s.processing, []);
    RemovalKeeps(dlq, s, SweepPeekStep(s, w, limit), n, w);
    RemovalKeeps(dlq, s, SweepReadStep(s, w), n, w);
    RemovalKeeps(dlq, s, SweepRemoveStep(s, w), n, w);
    RemovalKeeps(dlq, s, StopStep(s, w), n, w);
  }

  lemma MoverReadsKeep(dlq: Limit, s: State, n: nat, w: nat, batch: seq<Key>)
    requires Lineage(dlq, s, n) && w < |s.procs|
    ensures Lineage(dlq, MoveReadStep(s, w, batch), n + 1) && Lineage(dlq, MoveRemoveStep(s, w), n + 1)
    ensures Lineage(dlq, RedriveReadStep(dlq, s, w), n + 1) && Lineage(dlq, RedriveRemoveStep(s, w), n + 1)
  {
    hide Written, Once, Linked, RemoveFirst, RemoveEach, Missed, Decode, NoDup;
    assert Within(Remembers(s.procs[w]), s.popped);
    if s.procs[w].MoveRemoving? { WithinRemoval(s.delayed, s.procs[w].batch); }
    RemovalKeeps(dlq, s, MoveReadStep(s, w, batch), n, w);
    RemovalKeeps(dlq, s, MoveRemoveStep(s, w), n, w);
    RemovalKeeps(dlq, s, RedriveReadStep(dlq, s, w), n, w);
    RemovalKeeps(dlq, s, RedriveRemoveStep(s, w), n, w);
  }

  /** A requeue: the copy of a popped key, with the count that decoding it gave. */
  lemma RequeueKeeps(dlq: Limit, s: State, n: nat, w: nat, id: Bytes)
    requires Lineage(dlq, s, n) && w < |s.procs| && s.procs[w].Sweeping? && s.procs[w].batch != []
    requires AtMost(s.procs[w].batch[0], s.procs[w].limit) && Fresh(s, id)
    requires Decode(s.procs[w].batch[0]).Ok? && !AtLimit(dlq, Decode(s.procs[w].batch[0]).receives)
    ensures Lineage(dlq, SweepVisitStep(dlq, s, w, id), n + 1)
  {
    hide HasForm, IdOf, CountOf, Decode, Encode, AtMost, ValidId;
    var key := s.procs[w].batch[0];
    var s' := SweepVisitStep(dlq, s, w, id);
    assert key in s.popped by { assert Within(Remembers(s.procs[w]), s.popped); }
    FormDecodes(key);
    var Ok(payload, count) := Decode(key);
    var copy := Encode(id, count, payload);
    EncodeHasForm(id, count, payload);
    assert Written(dlq, s.used, n, key);
    PushKeeps(dlq, s, s', n, [copy]);
    MemoriesAfter(s, s', w);
    assert s'.parent == s.parent[copy := key];
  }

  lemma SweepVisitKeeps(dlq: Limit, s: State, n: nat, w: nat, id: Bytes)
    requires Lineage(dlq, s, n) && w < |s.procs|
    ensures Lineage(dlq, SweepVisitStep(dlq, s, w, id), n + 1)
  {
    hide Written, Once, Linked, Decode, Encode, AtMost;
    assert Within(Remembers(s.procs[w]), s.popped);
    var s' := SweepVisitStep(dlq, s, w, id);
    if s'.main != s.main {
      RequeueKeeps(dlq, s, n, w, id);
    } else {
      RemovalKeeps(dlq, s, s', n, w);
    }
  }

  lemma BatchPushKeeps(dlq: Limit, s: State, s': State, n: nat, w: nat, ids: seq<Bytes>, bodies: seq<Bytes>)
    requires Lineage(dlq, s, n) && w < |s.procs| == |s'.procs| && s'.procs == s.procs[w := s'.procs[w]]
    requires |ids| == |bodies| && FreshBatch(s, ids) && Remembers(s'.procs[w]) == []
    requires s'.main == PushHeads(s.main, FreshKeys(ids, bodies)) && s'.used == s.used + set id | id in ids
    requires s'.popped == s.popped && s'.processing == s.processing && s'.delayed == s.delayed && s'.parent == s.parent
    ensures Lineage(dlq, s', n + 1)
  {
    hide HasForm, IdOf, CountOf, Encode, Written;
    var keys := FreshKeys(ids, bodies);
    FreshKeysAreNew(dlq, s, ids, bodies, n + 1);
    PushKeeps(dlq, s, s', n, keys);
    MemoriesAfter(s, s', w);
  }

  lemma PushesKeep(dlq: Limit, s: State, n: nat, w: nat, ids: seq<Bytes>)
    requires Lineage(dlq, s, n) && w < |s.procs|
    ensures Lineage(dlq, MovePushStep(s, w, ids), n + 1) && Lineage(dlq, RedrivePushStep(s, w, ids), n + 1)
  {
    hide Lineage, FreshKeys, PushHeads;
    Later(dlq, s, n);
    var p := s.procs[w];
    if FreshBatch(s, ids) {
      if p.Moving? && |ids| == |p.batch| {
        BatchPushKeeps(dlq, s, MovePushStep(s, w, ids), n, w, ids, PayloadSeq(p.batch));
      }
      if p.Redriving? && |ids| == |p.bodies| {
        BatchPushKeeps(dlq, s, RedrivePushStep(s, w, ids), n, w, ids, p.bodies);
      }
    }
  }

  lemma ActionKeeps(dlq: Limit, s: State, n: nat, w: nat, a: Action)
    requires Lineage(dlq, s, n) && w < |s.procs|
    ensures Lineage(dlq, ActionStep(dlq, s, w, a), n + 1)
  {
    hide StopStep, ReceiveStep, AckStep, NackStep, NackFailsStep, NackRemoveStep, SweepPeekStep, SweepReadStep,
         SweepVisitStep, SweepRemoveStep, MoveReadStep, MovePushStep, MoveRemoveStep, RedriveReadStep,
         RedrivePushStep, RedriveRemoveStep, Lineage;
    match a
    case Stop => ReadsKeep(dlq, s, n, w, []);
    case Receive => ReceiveKeeps(dlq, s, n, w);
    case Ack(replyLost) => AckKeeps(dlq, s, n, w, replyLost);
    case Nack => NackKeeps(dlq, s, n, w);
    case NackFails => NackKeeps(dlq, s, n, w);
    case NackRemove(replyLost) => AckKeeps(dlq, s, n, w, replyLost);
    case SweepPeek(limit) => ReadsKeep(dlq, s, n, w, limit);
    case SweepRead => ReadsKeep(dlq, s, n, w, []);
    case SweepVisit(id) => SweepVisitKeeps(dlq, s, n, w, id);
    case SweepRemove => ReadsKeep(dlq, s, n, w, []);
    case MoveRead(batch) => MoverReadsKeep(dlq, s, n, w, batch);
    case MovePush(ids) => PushesKeep(dlq, s, n, w, ids);
    case MoveRemove => MoverReadsKeep(dlq, s, n, w, []);
    case RedriveRead => MoverReadsKeep(dlq, s, n, w, []);
    case RedrivePush(ids) => PushesKeep(dlq, s, n, w, ids);
    case RedriveRemove => MoverReadsKeep(dlq, s, n, w, []);
  }

  lemma StepKeeps(dlq: Limit, s: State, n: nat, e: Event)
    requires Lineage(dlq, s, n)
    ensures Lineage(dlq, Step(dlq, s, e), n + 1)
  {
    hide ActionStep, SendStep, SendScheduledStep, KeysWritten, Once, Linked;
    Later(dlq, s, n);
    match e
    case Spawn =>
      assert forall w | 0 <= w < |s.procs| :: (s.procs + [Idle])[w] == s.procs[w];
      SpawnKeeps(dlq, s, n + 1);
    case Send(id, payload) => SendKeeps(dlq, s, n, id, payload, 0);
    case SendScheduled(id, payload, rank) => SendKeeps(dlq, s, n, id, payload, rank);
    case By(w, a) => if w < |s.procs| { ActionKeeps(dlq, s, n, w, a); }
  }

  lemma SpawnKeeps(dlq: Limit, s: State, n: nat)
    requires Lineage(dlq, s, n)
    ensures Lineage(dlq, s.(procs := s.procs + [Idle]), n)
  {
    hide Written;
  }

  lemma {:induction false} RunKeeps(dlq: Limit, es: seq<Event>)
    ensures Lineage(dlq, Run(dlq, es), |es|)
  {
    hide Lineage, Step;
    if es == [] {
      InitHolds(dlq);
    } else {
      RunKeeps(dlq, es[..|es| - 1]);
      StepKeeps(dlq, Run(dlq, es[..|es| - 1]), |es| - 1, es[|es| - 1]);
    }
  }

  lemma InitHolds(dlq: Limit)
    ensures Lineage(dlq, INIT, 0)
  {
  }

  // ----- what it means -----

  /**
   * Reachable well-formedness: every key in a store has the form `id#count|payload`, and decodes, as long as a
   * retry limit or the length of the run keeps counts below `usize::MAX`.
   */
  lemma StoredKeysDecode(dlq: Limit, es: seq<Event>, key: Key)
    requires var s := Run(dlq, es); key in s.main || key in s.processing || key in s.delayed
    ensures HasForm(key)
    ensures (dlq.Some? && dlq.value <= USIZE_MAX) || |es| < USIZE_MAX ==>
              Decode(key) == Ok(PayloadOf(key), CountOf(key) + 1)
  {
    hide HasForm, CountOf, IdOf, PayloadOf, Decode;
    RunKeeps(dlq, es);
    var s := Run(dlq, es);
    assert Written(dlq, s.used, |es|, key);
    FormDecodes(key);
  }

  /** Hence a receive from a non-empty main list always yields a delivery. */
  lemma {:induction false} ReceiveYieldsADelivery(dlq: Limit, es: seq<Event>, w: nat)
    requires var s := Run(dlq, es); w < |s.procs| && s.procs[w] == Idle && s.main != []
    requires (dlq.Some? && dlq.value <= USIZE_MAX) || |es| < USIZE_MAX
    ensures var s := Run(dlq, es);
            var key := s.main[|s.main| - 1];
            ReceiveStep(s, w).procs[w] == Delivered(key, CountOf(key) + 1, false)
  {
    hide HasForm, CountOf, PayloadOf, Decode;
    var s := Run(dlq, es);
    StoredKeysDecode(dlq, es, s.main[|s.main| - 1]);
  }

  /** What a sweep has read decodes as well, even if it has left processing: no sweep meets a decode error. */
  lemma SweptKeysDecode(dlq: Limit, es: seq<Event>, w: nat, key: Key)
    requires w < |Run(dlq, es).procs| && key in Remembers(Run(dlq, es).procs[w])
    requires (dlq.Some? && dlq.value <= USIZE_MAX) || |es| < USIZE_MAX
    ensures Decode(key) == Ok(PayloadOf(key), CountOf(key) + 1)
  {
    hide HasForm, CountOf, IdOf, PayloadOf, Decode;
    RunKeeps(dlq, es);
    var s := Run(dlq, es);
    assert Within(Remembers(s.procs[w]), s.popped);
    assert Written(dlq, s.used, |es|, key);
    FormDecodes(key);
  }

  /** Nor does the mover: whatever it reads, it goes on to copy. */
  lemma MoverGoesOn(dlq: Limit, es: seq<Event>, w: nat, batch: seq<Key>)
    requires w < |Run(dlq, es).procs| && Run(dlq, es).procs[w] == Idle && MoveReply(Run(dlq, es), batch)
    requires (dlq.Some? && dlq.value <= USIZE_MAX) || |es| < USIZE_MAX
    ensures MoveReadStep(Run(dlq, es), w, batch).procs[w] == Moving(batch)
  {
    hide HasForm, CountOf, PayloadOf, Decode, Run;
    forall i | 0 <= i < |batch| ensures Decode(batch[i]).Ok? {
      StoredKeysDecode(dlq, es, batch[i]);
    }
  }

  // ----- no key is in processing twice -----

  /** Everything in processing was popped, once for every time it is there. */
  ghost predicate ProcessingPopped(s: State) {
    forall k :: multiset(s.processing)[k] <= multiset(s.popped)[k]
  }

  /** A step that pops nothing only takes keys out of processing. */
  ghost predicate OnlyRemoves(s: State, s': State) {
    s'.popped == s.popped && multiset(s'.processing) <= multiset(s.processing)
  }

  lemma ReceivePops(s: State, w: nat)
    requires ProcessingPopped(s) && w < |s.procs|
    ensures ProcessingPopped(ReceiveStep(s, w))
  {
    hide Decode;
  }

  lemma AckRemoves(s: State, w: nat, replyLost: bool)
    requires w < |s.procs|
    ensures OnlyRemoves(s, AckStep(s, w, replyLost))
  {
    hide RemoveFirst, PayloadOf;
    if s.procs[w].Delivered? { RemoveFirstBag(s.processing, s.procs[w].key); }
  }

  lemma NackRemoves(s: State, w: nat, replyLost: bool)
    requires w < |s.procs|
    ensures OnlyRemoves(s, NackRemoveStep(s, w, replyLost))
  {
    hide RemoveFirst, PayloadOf, MissedOne;
    if s.procs[w].NackRemoving? { RemoveFirstBag(s.processing, s.procs[w].key); }
  }

  lemma SweepRemoves(s: State, w: nat)
    requires w < |s.procs|
    ensures OnlyRemoves(s, SweepRemoveStep(s, w))
  {
    hide RemoveFirst, PayloadOf, MissedOne;
    var p := s.procs[w];
    if p.SweepRemoving? && p.batch != [] { RemoveFirstBag(s.processing, p.batch[0]); }
  }

  lemma OthersRemoveNothing(dlq: Limit, s: State, w: nat, a: Action)
    requires w < |s.procs| && !(a.Receive? || a.Ack? || a.NackRemove? || a.SweepRemove?)
    ensures ActionStep(dlq, s, w, a).popped == s.popped && ActionStep(dlq, s, w, a).processing == s.processing
  {
    hide Decode, Encode, PayloadOf, PayloadSeq, FreshKeys, PushHeads, RemoveFirst, RemoveEach, Missed, Owes, AtMost,
         AtLimit, AllDecode, MoveReply, FreshBatch, ReceiveStep, AckStep, NackRemoveStep, SweepRemoveStep;
  }

  lemma StepPops(dlq: Limit, s: State, e: Event)
    requires ProcessingPopped(s)
    ensures ProcessingPopped(Step(dlq, s, e))
  {
    hide ReceiveStep, AckStep, NackRemoveStep, SweepRemoveStep, StopStep, NackStep, NackFailsStep, SweepPeekStep,
         SweepReadStep, SweepVisitStep, MoveReadStep, MovePushStep, MoveRemoveStep, RedriveReadStep, RedrivePushStep,
         RedriveRemoveStep;
    if e.By? && e.w < |s.procs| {
      match e.action
      case Receive => ReceivePops(s, e.w);
      case Ack(replyLost) => AckRemoves(s, e.w, replyLost);
      case NackRemove(replyLost) => NackRemoves(s, e.w, replyLost);
      case SweepRemove => SweepRemoves(s, e.w);
      case _ => OthersRemoveNothing(dlq, s, e.w, e.action);
    }
  }

  lemma {:induction false} RunPops(dlq: Limit, es: seq<Event>)
    ensures ProcessingPopped(Run(dlq, es))
  {
    hide Step, ProcessingPopped;
    if es == [] {
      assert ProcessingPopped(INIT) by { NothingPopped(); }
    } else {
      RunPops(dlq, es[..|es| - 1]);
      StepPops(dlq, Run(dlq, es[..|es| - 1]), es[|es| - 1]);
    }
  }

  lemma NothingPopped()
    ensures ProcessingPopped(INIT)
  {
  }

  /** In every reachable state the keys in processing are all different, as the exact effect of a sweep needs. */
  lemma {:induction false} ProcessingNoDup(dlq: Limit, es: seq<Event>)
    ensures NoDup(Run(dlq, es).processing)
  {
    RunPops(dlq, es);
    RunKeeps(dlq, es);
    hide Run, KeysWritten, Linked, Memories;
    var s := Run(dlq, es);
    forall k ensures multiset(s.processing)[k] <= 1 {
      assert multiset(s.processing)[k] <= multiset(s.popped)[k];
    }
    BagNoDup(s.processing);
  }

  /** The keys `key` was copied from, oldest first, then `key`; `n` bounds how far back to look. */
  ghost function Chain(parent: map<Key, Key>, key: Key, n: nat): seq<Key>
    decreases n
  {
    if n == 0 || key !in parent then [key] else Chain(parent, parent[key], n - 1) + [key]
  }

  /** `child` is the copy a sweep made of the popped key `key`. */
  ghost predicate CopyOf(s: State, key: Key, child: Key) {
    key in s.popped && child in s.parent && s.parent[child] == key
  }

  ghost predicate IsChain(s: State, chain: seq<Key>, key: Key) {
    && |chain| == CountOf(key) + 1 && chain[|chain| - 1] == key && chain[0] !in s.parent
    && (forall i | 0 <= i < |chain| :: CountOf(chain[i]) == i)
    && (forall i | 0 < i < |chain| :: CopyOf(s, chain[i - 1], chain[i]))
  }

  lemma {:induction false} ChainShape(dlq: Limit, s: State, n: nat, key: Key)
    requires Lineage(dlq, s, n) && (key in s.main || key in s.popped)
    ensures IsChain(s, Chain(s.parent, key, CountOf(key)), key)
    decreases CountOf(key)
  {
    hide HasForm, IdOf, CountOf, KeysWritten, Memories, Once;
    if key in s.parent {
      var from := s.parent[key];
      ChainShape(dlq, s, n, from);
      var prefix := Chain(s.parent, from, CountOf(from));
      assert CopyOf(s, from, key);
      assert Chain(s.parent, key, CountOf(key)) == prefix + [key];
    } else {
      assert CountOf(key) == 0;
    }
  }

  /**
   * The count stored in a key is the number of deliveries its chain has had: each earlier key of the chain was
   * popped, and no key is ever popped twice or popped while it is in main.
   */
  lemma CountIsDeliveries(dlq: Limit, es: seq<Event>, key: Key)
    requires var s := Run(dlq, es); key in s.main || key in s.popped
    ensures var s := Run(dlq, es);
            var chain := Chain(s.parent, key, CountOf(key));
            && IsChain(s, chain, key) && NoDup(chain)
            && (forall i | 0 <= i < |chain| - 1 :: multiset(s.popped)[chain[i]] == 1 && chain[i] !in s.main)
            && multiset(s.popped)[key] + multiset(s.main)[key] == 1
  {
    hide CountOf, KeysWritten, Memories, Linked, Chain, Run;
    RunKeeps(dlq, es);
    var s := Run(dlq, es);
    ChainShape(dlq, s, |es|, key);
    var chain := Chain(s.parent, key, CountOf(key));
    forall i, j | 0 <= i < j < |chain| ensures chain[i] != chain[j] {
      assert CountOf(chain[i]) == i && CountOf(chain[j]) == j;
    }
    forall i | 0 <= i < |chain| - 1 ensures multiset(s.popped)[chain[i]] == 1 && chain[i] !in s.main {
      assert CopyOf(s, chain[i], chain[i + 1]);
      assert multiset(s.main)[chain[i]] + multiset(s.popped)[chain[i]] <= 1;
    }
    assert multiset(s.popped)[key] + multiset(s.main)[key] >= 1;
  }

  /** Delivery bound: with a retry limit a popped key's chain has at most `max(1, max_receives)` deliveries. */
  lemma DeliveryBound(dlq: Limit, es: seq<Event>, key: Key)
    requires dlq.Some? && key in Run(dlq, es).popped
    ensures |Chain(Run(dlq, es).parent, key, CountOf(key))| <= Max1(dlq.value)
  {
    hide CountOf, HasForm, IdOf;
    RunKeeps(dlq, es);
    var s := Run(dlq, es);
    ChainShape(dlq, s, |es|, key);
    assert Written(dlq, s.used, |es|, key);
  }

  // ----- who is retried -----

  /** How many deliveries a popped key and those it was copied from have had. */
  ghost function Had(s: State, key: Key): nat { |Chain(s.parent, key, CountOf(key))| }

  lemma HadDeliveries(dlq: Limit, es: seq<Event>, key: Key)
    requires key in Run(dlq, es).popped
    requires (dlq.Some? && dlq.value <= USIZE_MAX) || |es| < USIZE_MAX
    ensures var had := Had(Run(dlq, es), key);
            had == CountOf(key) + 1 && Decode(key) == Ok(PayloadOf(key), had) && (dlq.Some? ==> had <= Max1(dlq.value))
  {
    hide HasForm, CountOf, IdOf, PayloadOf, Decode, Run, Chain;
    RunKeeps(dlq, es);
    var s := Run(dlq, es);
    ChainShape(dlq, s, |es|, key);
    assert Written(dlq, s.used, |es|, key);
    FormDecodes(key);
  }

  /**
   * A sweep passes by a message that is not expired. It puts an expired one back after fewer deliveries than the
   * limit, under the count of these, and dead-letters it otherwise: then there have been exactly
   * `max(1, max_receives)`.
   */
  lemma SweepDecides(dlq: Limit, es: seq<Event>, w: nat, id: Bytes)
    requires var s := Run(dlq, es);
             w < |s.procs| && s.procs[w].Sweeping? && s.procs[w].batch != [] && Fresh(s, id)
    requires (dlq.Some? && dlq.value <= USIZE_MAX) || |es| < USIZE_MAX
    ensures var (s, s') := (Run(dlq, es), Step(dlq, Run(dlq, es), By(w, SweepVisit(id))));
            var key := s.procs[w].batch[0];
            if !AtMost(key, s.procs[w].limit)
            then s' == Put(s, w, SweepOf(s.procs[w].limit, s.procs[w].batch[1..]))
            else if dlq.None? || Had(s, key) < dlq.value
            then s'.main == s.main + [Encode(id, Had(s, key), PayloadOf(key))] && s'.dlq == s.dlq
            else s'.main == s.main && s'.dlq == s.dlq + [PayloadOf(key)] && Had(s, key) == Max1(dlq.value)
  {
    hide CountOf, IdOf, PayloadOf, Decode, Encode, Run, AtMost, Had;
    var key := Run(dlq, es).procs[w].batch[0];
    Remembered(dlq, es, w, key);
    HadDeliveries(dlq, es, key);
  }

  /** So does `nack`, which leaves a message below the limit to the sweep. */
  lemma NackDecides(dlq: Limit, es: seq<Event>, w: nat)
    requires w < |Run(dlq, es).procs| && Run(dlq, es).procs[w].Delivered?
    requires (dlq.Some? && dlq.value <= USIZE_MAX) || |es| < USIZE_MAX
    ensures var (s, s') := (Run(dlq, es), Step(dlq, Run(dlq, es), By(w, Nack)));
            var Delivered(key, receives, settled) := s.procs[w];
            && receives == Had(s, key) && s'.main == s.main && s'.processing == s.processing
            && if dlq.None? || Had(s, key) < dlq.value
               then s'.dlq == s.dlq && s'.procs[w] == Delivered(key, receives, true)
               else && s'.dlq == s.dlq + [PayloadOf(key)] && s'.procs[w] == NackRemoving(key, receives, settled)
                    && Had(s, key) == Max1(dlq.value)
  {
    hide CountOf, PayloadOf, Decode, Run, Had;
    var key := Run(dlq, es).procs[w].key;
    Remembered(dlq, es, w, key);
    HadDeliveries(dlq, es, key);
    C.NackSendsThePayload(dlq, es, w);
    C.RunKeeps(dlq, es);
    assert C.DeliveryDecodes(Run(dlq, es).procs[w]);
  }

  lemma Remembered(dlq: Limit, es: seq<Event>, w: nat, key: Key)
    requires w < |Run(dlq, es).procs| && key in Remembers(Run(dlq, es).procs[w])
    ensures key in Run(dlq, es).popped
  {
    hide Run;
    RunKeeps(dlq, es);
    assert Within(Remembers(Run(dlq, es).procs[w]), Run(dlq, es).popped);
  }
}

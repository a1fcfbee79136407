/**
 * The list backend as a protocol: every Redis command is one atomic step, any number of processes interleave,
 * and a process may stop between any two of its commands.
 */
module FallbackProtocol {
  import opened Bytes
  import opened Codec
  import opened RedisLists
  import opened Retry

  type Key = Bytes

  /** One sequential activity: a delivery with its acker, a sweep, a pass of the delayed mover, a redrive round. */
  datatype Proc =
    | Idle
    | Delivered(key: Key, receives: nat, settled: bool)
      // `nack` has pushed to the dead-letter list and still has to call `ack`
    | NackRemoving(key: Key, receives: nat, settled: bool)
      // the tail was expired; the batch is read next
    | SweepPeeked(limit: Bytes)
    | Sweeping(limit: Bytes, batch: seq<Key>)
      // a copy of batch[0] was pushed; its LREM comes next
    | SweepRemoving(limit: Bytes, batch: seq<Key>)
    | Moving(batch: seq<Key>)
      // copies of the batch were pushed; its ZREM comes next
    | MoveRemoving(batch: seq<Key>)
    | Redriving(bodies: seq<Bytes>)
      // copies were pushed; each of these still has its LREM to come
    | RedriveRemoving(bodies: seq<Bytes>)

  datatype State = State(
    main: seq<Key>, processing: seq<Key>, delayed: seq<Key>, dlq: seq<Bytes>, procs: seq<Proc>,
    // history: payloads sent; payloads removed by an ack; copies whose original nobody removes any more
    sent: multiset<Bytes>, acked: multiset<Bytes>, surplus: multiset<Bytes>,
    // history: identifiers drawn, keys popped from main in order, and for each requeued key the key it copies
    used: set<Bytes>, popped: seq<Key>, parent: map<Key, Key>)

  /** What one process may do next; `id`s and limits are what the library and the clock supply. */
  datatype Action =
    | Stop
    | Receive
    | Ack(replyLost: bool)
    | Nack
    | NackFails
    | NackRemove(replyLost: bool)
    | SweepPeek(limit: Bytes)
    | SweepRead
    | SweepVisit(id: Bytes)
    | SweepRemove
    | MoveRead(batch: seq<Key>)
    | MovePush(ids: seq<Bytes>)
    | MoveRemove
    | RedriveRead
    | RedrivePush(ids: seq<Bytes>)
    | RedriveRemove

  datatype Event =
    | Spawn
    | Send(id: Bytes, payload: Bytes)
    | SendScheduled(id: Bytes, payload: Bytes, rank: nat)
    | By(w: nat, action: Action)

  const INIT: State :=
    State([], [], [], [], [], multiset{}, multiset{}, multiset{}, {}, [], map[])

  /** Identifiers are assumed to be well formed and never drawn twice. */
  predicate Fresh(s: State, id: Bytes) { ValidId(id) && id !in s.used }

  predicate FreshBatch(s: State, ids: seq<Bytes>) {
    NoDup(ids) && forall i | 0 <= i < |ids| :: Fresh(s, ids[i])
  }

  /** What a process has copied but not yet removed. */
  function Owes(p: Proc): multiset<Bytes> {
    match p
    case NackRemoving(key, _, _) => multiset{PayloadOf(key)}
    case SweepRemoving(_, batch) => if batch == [] then multiset{} else multiset{PayloadOf(batch[0])}
    case MoveRemoving(batch) => Payloads(batch)
    case RedriveRemoving(bodies) => multiset(bodies)
    case _ => multiset{}
  }

  function SweepOf(limit: Bytes, batch: seq<Key>): Proc {
    if batch == [] then Idle else Sweeping(limit, batch)
  }

  // ----- one step of each process -----

  function SendStep(s: State, id: Bytes, payload: Bytes): State {
    if Fresh(s, id)
    then s.(main := [Encode(id, 0, payload)] + s.main, sent := s.sent + multiset{payload}, used := s.used + {id})
    else s
  }

  /** ZADD; the sorted set is kept as the list of its members, `rank` being where the score puts the new one. */
  function SendScheduledStep(s: State, id: Bytes, payload: Bytes, rank: nat): State {
    if Fresh(s, id) && rank <= |s.delayed|
    then s.(delayed := s.delayed[..rank] + [Encode(id, 0, payload)] + s.delayed[rank..],
            sent := s.sent + multiset{payload}, used := s.used + {id})
    else s
  }

  function Put(s: State, w: nat, p: Proc): State
    requires w < |s.procs|
  {
    s.(procs := s.procs[w := p])
  }

  /** BRPOPLPUSH main processing, then decoding; a key that does not decode stays behind in processing. */
  function ReceiveStep(s: State, w: nat): State
    requires w < |s.procs|
  {
    if s.main == [] || s.procs[w] != Idle then s
    else
      var key := s.main[|s.main| - 1];
      var next := match Decode(key) case Ok(_, n) => Delivered(key, n, false) case _ => Idle;
      Put(s.(main := s.main[..|s.main| - 1], processing := [key] + s.processing, popped := s.popped + [key]), w, next)
  }

  function AckStep(s: State, w: nat, replyLost: bool): State
    requires w < |s.procs|
  {
    match s.procs[w]
    case Delivered(key, n, settled) =>
      if settled then s
      else
        var removed := if key in s.processing then multiset{PayloadOf(key)} else multiset{};
        Put(s.(processing := RemoveFirst(s.processing, key), acked := s.acked + removed), w,
            Delivered(key, n, !replyLost))
    case _ => s
  }

  function NackStep(dlq: Limit, s: State, w: nat): State
    requires w < |s.procs|
  {
    match s.procs[w]
    case Delivered(key, n, settled) =>
      if AtLimit(dlq, n) then Put(s.(dlq := s.dlq + [DeadLetterBody(key)]), w, NackRemoving(key, n, settled))
      else Put(s, w, Delivered(key, n, true))
    case _ => s
  }

  /** A failed command in `nack` hands the delivery back to the caller. */
  function NackFailsStep(s: State, w: nat): State
    requires w < |s.procs|
  {
    match s.procs[w]
    case NackRemoving(key, n, settled) =>
      Put(s.(surplus := s.surplus + multiset{PayloadOf(key)}), w, Delivered(key, n, settled))
    case _ => s
  }

  function NackRemoveStep(s: State, w: nat, replyLost: bool): State
    requires w < |s.procs|
  {
    match s.procs[w]
    case NackRemoving(key, n, settled) =>
      if settled then Put(s.(surplus := s.surplus + multiset{PayloadOf(key)}), w, Delivered(key, n, settled))
      else Put(s.(processing := RemoveFirst(s.processing, key),
                  surplus := s.surplus + MissedOne(s.processing, key)), w, Delivered(key, n, !replyLost))
    case _ => s
  }

  function SweepPeekStep(s: State, w: nat, limit: Bytes): State
    requires w < |s.procs|
  {
    if s.procs[w] == Idle && s.processing != [] && AtMost(s.processing[|s.processing| - 1], limit)
    then Put(s, w, SweepPeeked(limit)) else s
  }

  function SweepReadStep(s: State, w: nat): State
    requires w < |s.procs|
  {
    match s.procs[w]
    case SweepPeeked(limit) => Put(s, w, SweepOf(limit, LastOf(s.processing, SWEEP_BATCH)))
    case _ => s
  }

  /** One turn of the sweep's loop up to its push; a key that does not decode ends the sweep. */
  function SweepVisitStep(dlq: Limit, s: State, w: nat, id: Bytes): State
    requires w < |s.procs|
  {
    match s.procs[w]
    case Sweeping(limit, batch) =>
      if batch == [] then Put(s, w, Idle)
      else if !AtMost(batch[0], limit) then Put(s, w, SweepOf(limit, batch[1..]))
      else (match Decode(batch[0])
            case Ok(payload, n) =>
              if AtLimit(dlq, n) then Put(s.(dlq := s.dlq + [payload]), w, SweepRemoving(limit, batch))
              else if !Fresh(s, id) then s
              else
                var copy := Encode(id, n, payload);
                Put(s.(main := s.main + [copy], used := s.used + {id}, parent := s.parent[copy := batch[0]]), w,
                    SweepRemoving(limit, batch))
            case _ => Put(s, w, Idle))
    case _ => s
  }

  function SweepRemoveStep(s: State, w: nat): State
    requires w < |s.procs|
  {
    match s.procs[w]
    case SweepRemoving(limit, batch) =>
      if batch == [] then s
      else Put(s.(processing := RemoveFirst(s.processing, batch[0]),
                  surplus := s.surplus + MissedOne(s.processing, batch[0])), w, SweepOf(limit, batch[1..]))
    case _ => s
  }

  /** A reply to the mover: any members of the sorted set may be due. */
  predicate MoveReply(s: State, batch: seq<Key>) {
    batch != [] && |batch| <= MOVE_BATCH && NoDup(batch) && forall i | 0 <= i < |batch| :: batch[i] in s.delayed
  }

  /** One member that does not decode ends the pass. */
  function MoveReadStep(s: State, w: nat, batch: seq<Key>): State
    requires w < |s.procs|
  {
    if s.procs[w] != Idle || !MoveReply(s, batch) then s
    else if AllDecode(batch) then Put(s, w, Moving(batch))
    else Put(s, w, Idle)
  }

  function MovePushStep(s: State, w: nat, ids: seq<Bytes>): State
    requires w < |s.procs|
  {
    match s.procs[w]
    case Moving(batch) =>
      if FreshBatch(s, ids) && |ids| == |batch|
      then Put(s.(main := PushHeads(s.main, FreshKeys(ids, PayloadSeq(batch))), used := s.used + set id | id in ids),
               w, MoveRemoving(batch))
      else s
    case _ => s
  }

  function MoveRemoveStep(s: State, w: nat): State
    requires w < |s.procs|
  {
    match s.procs[w]
    case MoveRemoving(batch) =>
      Put(s.(delayed := RemoveEach(s.delayed, batch), surplus := s.surplus + Missed(s.delayed, batch)), w, Idle)
    case _ => s
  }

  function RedriveReadStep(dlq: Limit, s: State, w: nat): State
    requires w < |s.procs|
  {
    if dlq.Some? && s.procs[w] == Idle && s.dlq != []
    then Put(s, w, Redriving(FirstOf(s.dlq, REDRIVE_BATCH))) else s
  }

  function RedrivePushStep(s: State, w: nat, ids: seq<Bytes>): State
    requires w < |s.procs|
  {
    match s.procs[w]
    case Redriving(bodies) =>
      if FreshBatch(s, ids) && |ids| == |bodies|
      then Put(s.(main := PushHeads(s.main, FreshKeys(ids, bodies)), used := s.used + set id | id in ids),
               w, RedriveRemoving(bodies))
      else s
    case _ => s
  }

  function RedriveRemoveStep(s: State, w: nat): State
    requires w < |s.procs|
  {
    match s.procs[w]
    case RedriveRemoving(bodies) =>
      if bodies == [] then Put(s, w, Idle)
      else
        var missed := if bodies[0] in s.dlq then multiset{} else multiset{bodies[0]};
        Put(s.(dlq := RemoveFirst(s.dlq, bodies[0]), surplus := s.surplus + missed), w, RedriveRemoving(bodies[1..]))
    case _ => s
  }

  function StopStep(s: State, w: nat): State
    requires w < |s.procs|
  {
    Put(s.(surplus := s.surplus + Owes(s.procs[w])), w, Idle)
  }

  function ActionStep(dlq: Limit, s: State, w: nat, a: Action): State
    requires w < |s.procs|
  {
    match a
    case Stop => StopStep(s, w)
    case Receive => ReceiveStep(s, w)
    case Ack(replyLost) => AckStep(s, w, replyLost)
    case Nack => NackStep(dlq, s, w)
    case NackFails => NackFailsStep(s, w)
    case NackRemove(replyLost) => NackRemoveStep(s, w, replyLost)
    case SweepPeek(limit) => SweepPeekStep(s, w, limit)
    case SweepRead => SweepReadStep(s, w)
    case SweepVisit(id) => SweepVisitStep(dlq, s, w, id)
    case SweepRemove => SweepRemoveStep(s, w)
    case MoveRead(batch) => MoveReadStep(s, w, batch)
    case MovePush(ids) => MovePushStep(s, w, ids)
    case MoveRemove => MoveRemoveStep(s, w)
    case RedriveRead => RedriveReadStep(dlq, s, w)
    case RedrivePush(ids) => RedrivePushStep(s, w, ids)
    case RedriveRemove => RedriveRemoveStep(s, w)
  }

  /** The next state; an event that the state does not allow changes nothing. */
  function Step(dlq: Limit, s: State, e: Event): State {
    match e
    case Spawn => s.(procs := s.procs + [Idle])
    case Send(id, payload) => SendStep(s, id, payload)
    case SendScheduled(id, payload, rank) => SendScheduledStep(s, id, payload, rank)
    case By(w, a) => if w < |s.procs| then ActionStep(dlq, s, w, a) else s
  }

  /** The state after a run that starts from empty stores. */
  function Run(dlq: Limit, es: seq<Event>): State {
    if es == [] then INIT else Step(dlq, Run(dlq, es[..|es| - 1]), es[|es| - 1])
  }
}

/**
 * The stream backend as a timed protocol: every Redis command is one atomic step, pipelines are not transactions,
 * any number of processes interleave, and a process may stop between any two of its commands.
 */
module StreamsProtocol {
  import opened Bytes
  import opened Codec
  import opened RedisLists
  import opened Retry

  type Key = Bytes

  const PENDING_BATCH_SIZE: nat := 1000

  /** A stream entry; its fields are those of `StreamCodec.StreamFields`. Entry ids only have to increase. */
  datatype Entry = Entry(id: nat, payload: Bytes, count: nat)

  datatype Config = Config(limit: Limit, ackDeadline: nat)

  datatype Proc =
    | Idle
    | Delivered(entry: Entry, settled: bool)
      // `nack` at the limit: XRANGE has found the body, RPUSH comes next
    | NackFetched(entry: Entry, settled: bool, body: Bytes)
      // pushed to the dead-letter list; `ack` comes next
    | NackPushed(entry: Entry, settled: bool)
      // XACK ran, XDEL comes next
    | AckDeleting(entry: Entry)
      // a sweep: entries not looked at, entries queued for XADD, entries already copied, time of the claim
    | Claimed(todo: seq<Entry>, queued: seq<Entry>, done: seq<Entry>, at: nat)
      // the body of todo[0] was read for the dead-letter list
    | ClaimFetched(todo: seq<Entry>, queued: seq<Entry>, done: seq<Entry>, at: nat, body: Bytes)
      // the sweep's XACK ran, its XDEL comes next
    | SweepDeleting(ids: seq<nat>)
    | MoveAdding(added: seq<Key>, waiting: seq<Key>)
    | RedriveAdding(readded: seq<Bytes>, rest: seq<Bytes>)
    | RedriveRemoving(bodies: seq<Bytes>)

  datatype State = State(
    stream: seq<Entry>, lastId: nat,
    // the consumer group: its last-delivered id, and when each pending entry was last handed out
    lastRead: nat, pending: map<nat, nat>,
    delayed: seq<Key>, dlq: seq<Bytes>, procs: seq<Proc>, clock: nat,
    history: History)

  /** What happened: the three sums of the conservation law, and the times of reads, early acks and requeues. */
  datatype History = History(
    sent: multiset<Bytes>, acked: multiset<Bytes>, surplus: multiset<Bytes>,
    readAt: map<nat, nat>, readIds: seq<nat>, ackedAt: map<nat, nat>, moved: seq<Move>)

  /** A sweep copied entry `id` at time `at`. */
  datatype Move = Move(id: nat, time: nat)

  datatype Action =
    | Stop
    | Ack
    | AckDelete(replyLost: bool)
    | AckFails
    | Nack
    | NackPush
    | NackAck
    | NackFails
    | Claim(batch: seq<Entry>, gone: set<nat>)
    | SweepVisit
    | SweepPush
    | SweepAdd
    | SweepAck
    | SweepDelete
    | MoveRead(members: seq<Key>)
    | MoveAdd
    | MoveRemove
    | RedriveRead
    | RedriveAdd
    | RedriveTurn
    | RedriveRemove

  datatype Event =
    | Tick(ms: nat)
    | Spawn
    | Send(payload: Bytes)
    | SendScheduled(key: Key, rank: nat)
    | Read(max: nat)
    | By(w: nat, action: Action)

  const INIT: State :=
    State([], 0, 0, map[], [], [], [], 0, History(multiset{}, multiset{}, multiset{}, map[], [], map[], []))

  // ----- commands -----

  predicate Present(stream: seq<Entry>, id: nat) {
    exists i :: 0 <= i < |stream| && stream[i].id == id
  }

  /** Entries in id order, no id twice. */
  ghost predicate Ascending(stream: seq<Entry>) {
    forall i, j | 0 <= i < j < |stream| :: stream[i].id < stream[j].id
  }

  /** XADD stream * */
  function XAdd(s: State, payload: Bytes, count: nat): State {
    s.(stream := s.stream + [Entry(s.lastId + 1, payload, count)], lastId := s.lastId + 1)
  }

  /** XDEL */
  function XDel(stream: seq<Entry>, ids: seq<nat>): seq<Entry> {
    if stream == [] then []
    else if stream[0].id in ids then XDel(stream[1..], ids)
    else [stream[0]] + XDel(stream[1..], ids)
  }

  /** The entries after `last`, at most `max` of them, in order. */
  function Unread(stream: seq<Entry>, last: nat, max: nat): seq<Entry> {
    if stream == [] || max == 0 then []
    else if stream[0].id > last then [stream[0]] + Unread(stream[1..], last, max - 1)
    else Unread(stream[1..], last, max)
  }

  /** XRANGE id id, which a sweep and `nack` use to fetch the body. */
  function BodyOf(stream: seq<Entry>, id: nat): Option<Bytes> {
    if stream == [] then None
    else if stream[0].id == id then Some(stream[0].payload)
    else BodyOf(stream[1..], id)
  }

  function Ids(es: seq<Entry>): (ids: seq<nat>)
    ensures |ids| == |es| && forall i | 0 <= i < |es| :: ids[i] == es[i].id
  {
    seq(|es|, i requires 0 <= i < |es| => es[i].id)
  }

  function IdSet(es: seq<Entry>): set<nat> {
    set i | 0 <= i < |es| :: es[i].id
  }

  /** XACK of one entry: still recoverable here means pending and still in the stream. */
  function GoneBody(s: State, e: Entry): multiset<Bytes> {
    if e.id in s.pending && Present(s.stream, e.id) then multiset{} else multiset{e.payload}
  }

  /** The payloads of those of `es` that acknowledging each in turn finds already gone. */
  function GoneBodies(s: State, es: seq<Entry>): multiset<Bytes>
    decreases |es|
  {
    if es == [] then multiset{}
    else GoneBody(s, es[0]) + GoneBodies(s.(pending := s.pending - {es[0].id}), es[1..])
  }

  /** The payloads of entries, and what a process has copied but not yet removed. */
  function Bodies(es: seq<Entry>): multiset<Bytes> {
    if es == [] then multiset{} else multiset{es[0].payload} + Bodies(es[1..])
  }

  function Owes(p: Proc): multiset<Bytes> {
    match p
    case NackPushed(e, _) => multiset{e.payload}
    case Claimed(_, _, done, _) => Bodies(done)
    case ClaimFetched(_, _, done, _, _) => Bodies(done)
    case MoveAdding(added, _) => Payloads(added)
    case RedriveAdding(readded, _) => multiset(readded)
    case RedriveRemoving(bodies) => multiset(bodies)
    case _ => multiset{}
  }

  // ----- one step of each process -----

  function Put(s: State, w: nat, p: Proc): State
    requires w < |s.procs|
  {
    s.(procs := s.procs[w := p])
  }

  function Surplus(s: State, extra: multiset<Bytes>): State {
    s.(history := s.history.(surplus := s.history.surplus + extra))
  }

  function Acked(s: State, removed: multiset<Bytes>, id: nat): State {
    s.(history := s.history.(acked := s.history.acked + removed,
       ackedAt := if id in s.history.ackedAt then s.history.ackedAt else s.history.ackedAt[id := s.clock]))
  }

  function Moved(s: State, id: nat): State {
    s.(history := s.history.(moved := s.history.moved + [Move(id, s.clock)]))
  }

  function StopStep(s: State, w: nat): State
    requires w < |s.procs|
  {
    Put(Surplus(s, Owes(s.procs[w])), w, Idle)
  }

  function SendStep(s: State, payload: Bytes): State {
    var s' := XAdd(s, payload, 0);
    s'.(history := s.history.(sent := s.history.sent + multiset{payload}))
  }

  /** The key of a newly scheduled message; identifiers, and so these keys, are never drawn twice. */
  predicate NewMessage(key: Key) { HasForm(key) && CountOf(key) == 0 }

  function SendScheduledStep(s: State, key: Key, rank: nat): State {
    if rank <= |s.delayed| && key !in s.delayed && NewMessage(key)
    then s.(delayed := s.delayed[..rank] + [key] + s.delayed[rank..],
            history := s.history.(sent := s.history.sent + multiset{PayloadOf(key)}))
    else s
  }

  function Deliveries(es: seq<Entry>): (ps: seq<Proc>)
    ensures |ps| == |es| && forall i | 0 <= i < |es| :: ps[i] == Delivered(es[i], false)
  {
    seq(|es|, i requires 0 <= i < |es| => Delivered(es[i], false))
  }

  predicate Readable(e: Entry) { e.count < USIZE_MAX }

  function HandOut(pending: map<nat, nat>, es: seq<Entry>, now: nat): map<nat, nat> {
    map id | id in pending.Keys + IdSet(es) :: if id in IdSet(es) then now else pending[id]
  }

  /**
   * XREADGROUP of at most `max` entries, which for COUNT 0 is the length of the stream; one unreadable entry loses the
   * whole reply, its entries stay pending.
   */
  function ReadStep(s: State, max: nat): State {
    var es := Unread(s.stream, s.lastRead, max);
    if es == [] then s
    else
      s.(lastRead := es[|es| - 1].id, pending := HandOut(s.pending, es, s.clock),
         procs := s.procs + (if forall i | 0 <= i < |es| :: Readable(es[i]) then Deliveries(es) else []),
         history := s.history.(readAt := HandOut(s.history.readAt, es, s.clock),
                               readIds := s.history.readIds + Ids(es)))
  }

  function XAck(s: State, id: nat): State { s.(pending := s.pending - {id}) }

  function AckStep(s: State, w: nat): State
    requires w < |s.procs|
  {
    match s.procs[w]
    case Delivered(e, settled) =>
      if settled then s
      else
        var removed := if e.id in s.pending && Present(s.stream, e.id) then multiset{e.payload} else multiset{};
        Put(Acked(XAck(s, e.id), removed, e.id), w, AckDeleting(e))
    case _ => s
  }

  function AckDeleteStep(s: State, w: nat, replyLost: bool): State
    requires w < |s.procs|
  {
    match s.procs[w]
    case AckDeleting(e) => Put(s.(stream := XDel(s.stream, [e.id])), w, Delivered(e, !replyLost))
    case _ => s
  }

  function AckFailsStep(s: State, w: nat): State
    requires w < |s.procs|
  {
    match s.procs[w] case AckDeleting(e) => Put(s, w, Delivered(e, false)) case _ => s
  }

  function NackStep(c: Config, s: State, w: nat): State
    requires w < |s.procs|
  {
    match s.procs[w]
    case Delivered(e, settled) =>
      if AtLimit(c.limit, e.count + 1)
      then (match BodyOf(s.stream, e.id)
            case Some(body) => Put(s, w, NackFetched(e, settled, body))
            case None => s)
      else Put(s, w, Delivered(e, true))
    case _ => s
  }

  function NackPushStep(s: State, w: nat): State
    requires w < |s.procs|
  {
    match s.procs[w]
    case NackFetched(e, settled, body) => Put(s.(dlq := s.dlq + [body]), w, NackPushed(e, settled))
    case _ => s
  }

  function NackAckStep(s: State, w: nat): State
    requires w < |s.procs|
  {
    match s.procs[w]
    case NackPushed(e, settled) =>
      if settled then Put(Surplus(s, multiset{e.payload}), w, Delivered(e, settled))
      else Put(XAck(Surplus(s, GoneBody(s, e)), e.id), w, AckDeleting(e))
    case _ => s
  }

  /** A failed command in `nack` hands the delivery back to the caller. */
  function NackFailsStep(s: State, w: nat): State
    requires w < |s.procs|
  {
    match s.procs[w]
    case NackFetched(e, settled, _) => Put(s, w, Delivered(e, settled))
    case NackPushed(e, settled) => Put(Surplus(s, multiset{e.payload}), w, Delivered(e, settled))
    case _ => s
  }

  predicate Idleness(c: Config, s: State, e: Entry) {
    e in s.stream && e.id in s.pending && s.clock >= s.pending[e.id] + c.ackDeadline
  }

  /** XAUTOCLAIM: idle pending entries, or none, are handed to the sweep; ids of deleted entries may be dropped. */
  predicate Claimable(c: Config, s: State, batch: seq<Entry>, gone: set<nat>) {
    && |batch| <= PENDING_BATCH_SIZE && NoDup(Ids(batch))
    && (forall i | 0 <= i < |batch| :: Idleness(c, s, batch[i]))
    && (forall id | id in gone :: !Present(s.stream, id))
  }

  /** An empty reply ends the sweep. */
  function Claiming(batch: seq<Entry>, at: nat): Proc {
    if batch == [] then Idle else Claimed(batch, [], [], at)
  }

  function ClaimStep(c: Config, s: State, w: nat, batch: seq<Entry>, gone: set<nat>): State
    requires w < |s.procs|
  {
    if s.procs[w] == Idle && Claimable(c, s, batch, gone)
    then Put(s.(pending := HandOut(s.pending, batch, s.clock) - gone), w, Claiming(batch, s.clock))
    else s
  }

  /** One turn of the sweep's loop; an unreadable or vanished entry ends the sweep. */
  function SweepVisitStep(c: Config, s: State, w: nat): State
    requires w < |s.procs|
  {
    match s.procs[w]
    case Claimed(todo, queued, done, at) =>
      if todo == [] then s
      else if !Readable(todo[0]) then StopStep(s, w)
      else if !AtLimit(c.limit, todo[0].count + 1) then Put(s, w, Claimed(todo[1..], queued + [todo[0]], done, at))
      else (match BodyOf(s.stream, todo[0].id)
            case Some(body) => Put(s, w, ClaimFetched(todo, queued, done, at, body))
            case None => StopStep(s, w))
    case _ => s
  }

  function SweepPushStep(s: State, w: nat): State
    requires w < |s.procs|
  {
    match s.procs[w]
    case ClaimFetched(todo, queued, done, at, body) =>
      if todo == [] then s
      else Put(Moved(s.(dlq := s.dlq + [body]), todo[0].id), w, Claimed(todo[1..], queued, done + [todo[0]], at))
    case _ => s
  }

  /** The next XADD of the sweep's pipeline. */
  function SweepAddStep(s: State, w: nat): State
    requires w < |s.procs|
  {
    match s.procs[w]
    case Claimed(todo, queued, done, at) =>
      if todo != [] || queued == [] then s
      else
        var e := queued[0];
        Put(Moved(XAdd(s, e.payload, e.count + 1), e.id), w, Claimed([], queued[1..], done + [e], at))
    case _ => s
  }

  function SweepAckStep(s: State, w: nat): State
    requires w < |s.procs|
  {
    match s.procs[w]
    case Claimed(todo, queued, done, at) =>
      if todo != [] || queued != [] then s
      else Put(Surplus(s, GoneBodies(s, done)).(pending := s.pending - IdSet(done)), w, SweepDeleting(Ids(done)))
    case _ => s
  }

  function SweepDeleteStep(s: State, w: nat): State
    requires w < |s.procs|
  {
    match s.procs[w]
    case SweepDeleting(ids) => Put(s.(stream := XDel(s.stream, ids)), w, Idle)
    case _ => s
  }

  /** A reply to the mover: any members of the sorted set may be due. */
  predicate MoveReply(s: State, members: seq<Key>) {
    0 < |members| <= MOVE_BATCH && NoDup(members) && forall i | 0 <= i < |members| :: members[i] in s.delayed
  }

  /** One member that does not decode ends the pass. */
  function MoveReadStep(s: State, w: nat, members: seq<Key>): State
    requires w < |s.procs|
  {
    if s.procs[w] != Idle || !MoveReply(s, members) then s
    else if AllDecode(members) then Put(s, w, MoveAdding([], members))
    else Put(s, w, Idle)
  }

  function MoveAddStep(s: State, w: nat): State
    requires w < |s.procs|
  {
    match s.procs[w]
    case MoveAdding(added, next) =>
      if next == [] then s
      else Put(XAdd(s, PayloadOf(next[0]), 0), w, MoveAdding(added + [next[0]], next[1..]))
    case _ => s
  }

  function MoveRemoveStep(s: State, w: nat): State
    requires w < |s.procs|
  {
    match s.procs[w]
    case MoveAdding(added, next) =>
      if next != [] then s
      else Put(Surplus(s.(delayed := RemoveEach(s.delayed, added)), Missed(s.delayed, added)), w, Idle)
    case _ => s
  }

  function RedriveReadStep(c: Config, s: State, w: nat): State
    requires w < |s.procs|
  {
    if c.limit.Some? && s.procs[w] == Idle && s.dlq != []
    then Put(s, w, RedriveAdding([], FirstOf(s.dlq, REDRIVE_BATCH))) else s
  }

  function RedriveAddStep(s: State, w: nat): State
    requires w < |s.procs|
  {
    match s.procs[w]
    case RedriveAdding(readded, rest) =>
      if rest == [] then s
      else Put(XAdd(s, rest[0], 0), w, RedriveAdding(readded + [rest[0]], rest[1..]))
    case _ => s
  }

  /** The pipeline is through; the removals begin. */
  function RedriveTurnStep(s: State, w: nat): State
    requires w < |s.procs|
  {
    match s.procs[w]
    case RedriveAdding(readded, rest) => if rest == [] then Put(s, w, RedriveRemoving(readded)) else s
    case _ => s
  }

  function RedriveRemoveStep(s: State, w: nat): State
    requires w < |s.procs|
  {
    match s.procs[w]
    case RedriveRemoving(bodies) =>
      if bodies == [] then Put(s, w, Idle)
      else
        var missed := if bodies[0] in s.dlq then multiset{} else multiset{bodies[0]};
        Put(Surplus(s.(dlq := RemoveFirst(s.dlq, bodies[0])), missed), w, RedriveRemoving(bodies[1..]))
    case _ => s
  }

  function ActionStep(c: Config, s: State, w: nat, a: Action): State
    requires w < |s.procs|
  {
    match a
    case Stop => StopStep(s, w)
    case Ack => AckStep(s, w)
    case AckDelete(replyLost) => AckDeleteStep(s, w, replyLost)
    case AckFails => AckFailsStep(s, w)
    case Nack => NackStep(c, s, w)
    case NackPush => NackPushStep(s, w)
    case NackAck => NackAckStep(s, w)
    case NackFails => NackFailsStep(s, w)
    case Claim(batch, gone) => ClaimStep(c, s, w, batch, gone)
    case SweepVisit => SweepVisitStep(c, s, w)
    case SweepPush => SweepPushStep(s, w)
    case SweepAdd => SweepAddStep(s, w)
    case SweepAck => SweepAckStep(s, w)
    case SweepDelete => SweepDeleteStep(s, w)
    case MoveRead(members) => MoveReadStep(s, w, members)
    case MoveAdd => MoveAddStep(s, w)
    case MoveRemove => MoveRemoveStep(s, w)
    case RedriveRead => RedriveReadStep(c, s, w)
    case RedriveAdd => RedriveAddStep(s, w)
    case RedriveTurn => RedriveTurnStep(s, w)
    case RedriveRemove => RedriveRemoveStep(s, w)
  }

  /** The next state; an event that the state does not allow changes nothing. */
  function Step(c: Config, s: State, e: Event): State {
    match e
    case Tick(ms) => s.(clock := s.clock + ms)
    case Spawn => s.(procs := s.procs + [Idle])
    case Send(payload) => SendStep(s, payload)
    case SendScheduled(key, rank) => SendScheduledStep(s, key, rank)
    case Read(max) => ReadStep(s, max)
    case By(w, a) => if w < |s.procs| then ActionStep(c, s, w, a) else s
  }

  function Run(c: Config, es: seq<Event>): State {
    if es == [] then INIT else Step(c, Run(c, es[..|es| - 1]), es[|es| - 1])
  }
}

/** The operations of the stream backend run one at a time, on the stores they change. */
module StreamsQueue {
  import opened Bytes
  import opened Codec
  import opened Ksuid
  import opened RedisLists
  import opened Retry
  import opened DelayedSet
  import opened DelayedKeys
  import opened StreamsProtocol

  /** The stream and its consumer group, the delayed set, the dead-letter list, and how many identifiers were drawn. */
  datatype Streams = Streams(stream: seq<Entry>, lastId: nat, lastRead: nat, pending: map<nat, nat>,
                             delayed: seq<Member>, dlq: seq<Bytes>, drawn: nat)

  // ----- specifications -----

  /** The entries that XADD makes of bodies with count 0, with the ids after `lastId`. */
  function NewEntries(lastId: nat, bodies: seq<Bytes>): (es: seq<Entry>)
    ensures |es| == |bodies|
    ensures forall i | 0 <= i < |bodies| :: es[i] == Entry(lastId + 1 + i, bodies[i], 0)
  {
    seq(|bodies|, i requires 0 <= i < |bodies| => Entry(lastId + 1 + i, bodies[i], 0))
  }

  function AddOp(s: Streams, bodies: seq<Bytes>): Streams {
    s.(stream := s.stream + NewEntries(s.lastId, bodies), lastId := s.lastId + |bodies|)
  }

  function ScheduleOp(draw: Draw, s: Streams, payload: Bytes, second: nat): Streams {
    s.(delayed := ZAdd(s.delayed, Member(second, Encode(draw(s.drawn), 0, payload))), drawn := s.drawn + 1)
  }

  /** XREADGROUP COUNT count: 0 is no limit. */
  function ReadLimit(stream: seq<Entry>, count: nat): nat { if count == 0 then |stream| else count }

  function ReadOp(s: Streams, max: nat, now: nat): Streams {
    var es := Unread(s.stream, s.lastRead, max);
    if es == [] then s else s.(lastRead := es[|es| - 1].id, pending := HandOut(s.pending, es, now))
  }

  /** XACK and XDEL of one entry. */
  function AckOp(s: Streams, id: nat): Streams {
    s.(pending := s.pending - {id}, stream := XDel(s.stream, [id]))
  }

  /** `nack`: at the limit the body goes to the dead-letter list, if the entry still exists. */
  function NackOp(limit: Limit, s: Streams, id: nat, receives: nat): Streams {
    if !AtLimit(limit, receives) then s
    else
      match BodyOf(s.stream, id)
      case Some(body) => AckOp(s.(dlq := s.dlq + [body]), id)
      case None => s
  }

  /** An XAUTOCLAIM reply: some of the pending entries that have been idle for the deadline. */
  predicate ClaimReply(c: Config, s: Streams, batch: seq<Entry>, now: nat) {
    && |batch| <= PENDING_BATCH_SIZE && NoDup(Ids(batch))
    && forall i | 0 <= i < |batch| ::
         batch[i] in s.stream && batch[i].id in s.pending && now >= s.pending[batch[i].id] + c.ackDeadline
  }

  /** Whether a sweep gets past entry `e`: its count is readable, and its body is there if it is to be dead-lettered. */
  predicate Passes(limit: Limit, stream: seq<Entry>, e: Entry) {
    Readable(e) && (AtLimit(limit, e.count + 1) ==> BodyOf(stream, e.id).Some?)
  }

  /** The loop of a sweep: the bodies it dead-letters, and whether it gets through the batch. */
  function Visit(limit: Limit, stream: seq<Entry>, batch: seq<Entry>): (seq<Bytes>, bool) {
    if batch == [] then ([], true)
    else if !Passes(limit, stream, batch[0]) then ([], false)
    else
      var (bodies, finished) := Visit(limit, stream, batch[1..]);
      (if AtLimit(limit, batch[0].count + 1) then [BodyOf(stream, batch[0].id).value] + bodies else bodies, finished)
  }

  /** The entries below the limit. */
  function Retried(limit: Limit, batch: seq<Entry>): seq<Entry> {
    if batch == [] then []
    else (if AtLimit(limit, batch[0].count + 1) then [] else [batch[0]]) + Retried(limit, batch[1..])
  }

  /** Their copies, counted up. */
  function Copies(lastId: nat, es: seq<Entry>): (copies: seq<Entry>)
    ensures |copies| == |es|
    ensures forall i | 0 <= i < |es| :: copies[i] == Entry(lastId + 1 + i, es[i].payload, es[i].count + 1)
  {
    seq(|es|, i requires 0 <= i < |es| => Entry(lastId + 1 + i, es[i].payload, es[i].count + 1))
  }

  /**
   * One sweep of a claimed batch. Bodies at the limit are dead-lettered on the way; an entry the loop cannot get
   * past ends the sweep there, with what was dead-lettered so far. Else the others are copied, and the whole batch
   * is acknowledged and deleted.
   */
  function SweepOp(limit: Limit, s: Streams, batch: seq<Entry>, now: nat): (Streams, bool) {
    var (bodies, finished) := Visit(limit, s.stream, batch);
    var s1 := s.(pending := HandOut(s.pending, batch, now), dlq := s.dlq + bodies);
    if batch == [] then (s, true)
    else if !finished then (s1, false)
    else
      var queued := Retried(limit, batch);
      (s1.(stream := XDel(s.stream + Copies(s.lastId, queued), Ids(batch)), lastId := s.lastId + |queued|,
           pending := s1.pending - IdSet(batch)), true)
  }

  /** One pass of the delayed mover that has the lock. */
  function MoveOp(s: Streams, second: nat): (Streams, bool) {
    var batch := FirstOf(Due(s.delayed, second), MOVE_BATCH);
    if !AllDecode(Keys(batch)) then (s, false)
    else (AddOp(s, PayloadSeq(Keys(batch))).(delayed := RemoveEach(s.delayed, batch)), true)
  }

  /** `redrive_dlq` as one move of the whole dead-letter list. */
  function RedriveOp(s: Streams): Streams {
    AddOp(s, s.dlq).(dlq := [])
  }

  /** One pass over a sorted set: the first `n` members go, and their payloads are added in order with count 0. */
  ghost predicate PassTakes(s: Streams, s': Streams, n: nat) {
    && n <= |s.delayed| && s'.delayed == s.delayed[n..]
    && s'.stream == s.stream + NewEntries(s.lastId, PayloadSeq(Keys(s.delayed[..n])))
    && s' == s.(delayed := s'.delayed, stream := s'.stream, lastId := s.lastId + n)
  }

  /** A pass takes exactly the due members, or the first 50 of them, unless one of these does not decode. */
  lemma PassTakesDue(s: Streams, second: nat)
    requires Sorted(s.delayed)
    ensures var (s', passed) := MoveOp(s, second);
            var n := PassSize(s.delayed, second);
            && n <= |s.delayed| && (passed <==> AllDecode(Keys(s.delayed[..n])))
            && if passed then PassTakes(s, s', n) else s' == s
  {
    hide Due, Decode, RemoveEach, NewEntries, Keys, PayloadSeq, PassSize;
    PassTakesTheFirst(s.delayed, second);
  }

  lemma NewEntriesTwice(lastId: nat, a: seq<Bytes>, b: seq<Bytes>)
    ensures NewEntries(lastId, a) + NewEntries(lastId + |a|, b) == NewEntries(lastId, a + b)
  {
  }

  lemma RedriveBatches(s: Streams, batch: seq<Bytes>, rest: seq<Bytes>)
    requires s.dlq == batch + rest
    ensures RedriveOp(AddOp(s, batch).(dlq := rest)) == RedriveOp(s)
  {
    NewEntriesTwice(s.lastId, batch, rest);
    assert s.stream + NewEntries(s.lastId, batch) + NewEntries(s.lastId + |batch|, rest)
        == s.stream + NewEntries(s.lastId, batch + rest);
  }

  lemma RedriveNothing(s: Streams)
    requires s.dlq == []
    ensures RedriveOp(s) == s
  {
    assert s.stream + NewEntries(s.lastId, []) == s.stream;
  }
}

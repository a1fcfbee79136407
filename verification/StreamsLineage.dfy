/**
 * How often a streamed message is delivered: each entry a sweep adds is a copy of one read before, so entries form
 * chains whose counts go up by one per read, and no stored count ever becomes unreadable.
 */
module StreamsLineage {
  import opened Bytes
  import opened Codec
  import opened RedisLists
  import opened Retry
  import opened StreamsProtocol
  import opened StreamsLease
  import C = StreamsConservation
  import E = StreamEntries

  /** Every entry ever added, and for each copy a sweep made the id of the entry it copied. */
  datatype Log = Log(entries: map<nat, Entry>, parent: map<nat, nat>)

  /** The entry that event `e` copies, when it is the XADD of a sweep. */
  function Source(s: State, e: Event): Option<Entry> {
    if e.By? && e.w < |s.procs| && e.action.SweepAdd? && s.procs[e.w].Claimed?
       && s.procs[e.w].todo == [] && s.procs[e.w].queued != []
    then Some(s.procs[e.w].queued[0]) else None
  }

  /** An event that takes a new id has put its entry at the end of the stream. */
  function Logged(log: Log, s: State, e: Event, s': State): Log {
    if s'.lastId == s.lastId || s'.stream == [] then log
    else
      var entry := s'.stream[|s'.stream| - 1];
      Log(log.entries[entry.id := entry],
          match Source(s, e) case None => log.parent case Some(from) => log.parent[entry.id := from.id])
  }

  function LogOf(c: Config, es: seq<Event>): Log {
    if es == [] then Log(map[], map[])
    else Logged(LogOf(c, es[..|es| - 1]), Run(c, es[..|es| - 1]), es[|es| - 1], Run(c, es))
  }

  // ----- the invariant -----

  predicate Recorded(log: Log, e: Entry) { e.id in log.entries && log.entries[e.id] == e }

  /** What a sweep has queued for XADD. */
  function Queued(p: Proc): seq<Entry> {
    if Sweeps(p) then p.queued else []
  }

  ghost predicate ProcRecorded(c: Config, log: Log, p: Proc) {
    && (forall e | e in Holds(p) :: Recorded(log, e))
    && (forall e | e in Queued(p) :: !AtLimit(c.limit, e.count + 1))
    && (HandlesDelivery(p) ==> Recorded(log, p.entry))
  }

  ghost predicate AllRecorded(c: Config, s: State, log: Log) {
    && (forall id :: id in log.entries <==> 0 < id <= s.lastId)
    && (forall e | e in s.stream :: Recorded(log, e))
    && (forall w | 0 <= w < |s.procs| :: ProcRecorded(c, log, s.procs[w]))
  }

  /** Entry `e` is a copy of entry `from`, which was read before. */
  ghost predicate CopyOf(s: State, log: Log, e: Entry, from: Entry) {
    && e.id in log.parent && log.parent[e.id] == from.id && from.id < e.id && from.id in s.history.readAt
    && e.count == from.count + 1 && e.payload == from.payload
  }

  /** A count is at most the number of events and below the retry limit. */
  ghost predicate Bounded(c: Config, n: nat, e: Entry) {
    e.count <= n && (c.limit.Some? && e.count > 0 ==> e.count < c.limit.value)
  }

  ghost predicate Linked(s: State, log: Log) {
    && (forall id | id in log.entries :: id == log.entries[id].id)
    && (forall id | id in log.entries && id !in log.parent :: log.entries[id].count == 0)
    && (forall id | id in log.parent ::
          && id in log.entries && log.parent[id] in log.entries
          && CopyOf(s, log, log.entries[id], log.entries[log.parent[id]]))
  }

  ghost predicate AllBounded(c: Config, log: Log, n: nat) {
    forall id | id in log.entries :: Bounded(c, n, log.entries[id])
  }

  ghost predicate Lineage(c: Config, s: State, log: Log, n: nat) {
    AllRecorded(c, s, log) && Linked(s, log) && AllBounded(c, log, n)
  }

  // ----- what one event does -----

  /** A process goes on with entries it had or that are in the stream, and queues none at the limit. */
  ghost predicate GoesOnWith(c: Config, s: State, p: Proc, p': Proc) {
    && (forall e | e in Holds(p') :: e in Holds(p) || e in s.stream)
    && (forall e | e in Queued(p') :: e in Queued(p) || !AtLimit(c.limit, e.count + 1))
    && (HandlesDelivery(p') ==> HandlesDelivery(p) && p'.entry == p.entry)
  }

  ghost predicate ProcsGoOn(c: Config, s: State, s': State) {
    && |s.procs| <= |s'.procs|
    && (forall w | 0 <= w < |s.procs| :: GoesOnWith(c, s, s.procs[w], s'.procs[w]))
    && (forall w | |s.procs| <= w < |s'.procs| ::
          Holds(s'.procs[w]) == [] && (HandlesDelivery(s'.procs[w]) ==> s'.procs[w].entry in s.stream))
  }

  /** At most one entry is added: a message with count 0, or the copy of what a sweep has queued. */
  ghost predicate AddsAtMostOne(s: State, e: Event, s': State) {
    || (s'.lastId == s.lastId && forall x | x in s'.stream :: x in s.stream)
    || (s'.lastId == s.lastId + 1 && exists x: Entry :: s'.stream == s.stream + [x] && Addition(s, e, s', x))
  }

  ghost predicate Addition(s: State, e: Event, s': State, x: Entry) {
    x.id == s'.lastId
    && match Source(s, e)
       case None => x.count == 0
       case Some(from) => x.count == from.count + 1 && x.payload == from.payload
  }

  ghost predicate Follows(c: Config, s: State, e: Event, s': State) {
    ProcsGoOn(c, s, s') && AddsAtMostOne(s, e, s') && s.history.readAt.Keys <= s'.history.readAt.Keys
  }

  /** One process moves, and the stream does not grow. */
  lemma AddsNothing(c: Config, s: State, e: Event, s': State, w: nat, ids: seq<nat>)
    requires w < |s.procs| == |s'.procs| && s'.procs == s.procs[w := s'.procs[w]]
    requires GoesOnWith(c, s, s.procs[w], s'.procs[w])
    requires s'.lastId == s.lastId && s'.history.readAt == s.history.readAt
    requires Ascending(s.stream) && (s'.stream == s.stream || s'.stream == XDel(s.stream, ids))
    ensures Follows(c, s, e, s')
  {
    hide Holds, Queued, XDel;
    E.XDelMembers(s.stream, ids);
  }

  /** One process moves, and the stream gets one entry. */
  lemma AddsOne(c: Config, s: State, e: Event, s': State, w: nat, payload: Bytes, count: nat)
    requires w < |s.procs| == |s'.procs| && s'.procs == s.procs[w := s'.procs[w]]
    requires GoesOnWith(c, s, s.procs[w], s'.procs[w])
    requires s'.lastId == s.lastId + 1 && s'.history.readAt == s.history.readAt
    requires s'.stream == s.stream + [Entry(s.lastId + 1, payload, count)]
    requires Addition(s, e, s', Entry(s.lastId + 1, payload, count))
    ensures Follows(c, s, e, s')
  {
    hide Holds, Queued, Source;
  }

  lemma Same(c: Config, s: State, e: Event)
    ensures Follows(c, s, e, s)
  {
  }

  lemma SettlerFollows(c: Config, s: State, w: nat, a: Action)
    requires w < |s.procs| && Ascending(s.stream)
    requires a.Ack? || a.AckDelete? || a.AckFails? || a.Nack? || a.NackPush? || a.NackAck? || a.NackFails? || a.Stop?
    ensures Follows(c, s, By(w, a), ActionStep(c, s, w, a))
  {
    hide Follows, XDel, BodyOf, GoneBody, Present, Owes, ClaimStep, SweepVisitStep, SweepPushStep, SweepAddStep,
         SweepAckStep, SweepDeleteStep, MoveReadStep, MoveAddStep, MoveRemoveStep, RedriveReadStep, RedriveAddStep,
         RedriveTurnStep, RedriveRemoveStep;
    var s' := ActionStep(c, s, w, a);
    if s' == s {
      Same(c, s, By(w, a));
    } else {
      AddsNothing(c, s, By(w, a), s', w, if s.procs[w].AckDeleting? then [s.procs[w].entry.id] else []);
    }
  }

  lemma SweepFollows(c: Config, s: State, w: nat, a: Action)
    requires w < |s.procs| && Ascending(s.stream)
    requires a.SweepVisit? || a.SweepPush? || a.SweepAck? || a.SweepDelete?
    ensures Follows(c, s, By(w, a), ActionStep(c, s, w, a))
  {
    hide Follows, XDel, BodyOf, GoneBodies, Owes, ClaimStep, SweepAddStep, AckStep, AckDeleteStep, AckFailsStep,
         NackStep, NackPushStep, NackAckStep, NackFailsStep, MoveReadStep, MoveAddStep, MoveRemoveStep,
         RedriveReadStep, RedriveAddStep, RedriveTurnStep, RedriveRemoveStep;
    var (p, s') := (s.procs[w], ActionStep(c, s, w, a));
    if s' == s {
      Same(c, s, By(w, a));
    } else {
      if Sweeps(p) && p.todo != [] { assert p.todo == [p.todo[0]] + p.todo[1..]; }
      AddsNothing(c, s, By(w, a), s', w, if p.SweepDeleting? then p.ids else []);
    }
  }

  lemma ClaimFollows(c: Config, s: State, w: nat, batch: seq<Entry>, gone: set<nat>)
    requires w < |s.procs| && Ascending(s.stream)
    ensures Follows(c, s, By(w, Claim(batch, gone)), ClaimStep(c, s, w, batch, gone))
  {
    hide Follows, HandOut, Present, NoDup;
    var (e, s') := (By(w, Claim(batch, gone)), ClaimStep(c, s, w, batch, gone));
    if s' == s {
      Same(c, s, e);
    } else {
      assert Holds(s'.procs[w]) == batch && Queued(s'.procs[w]) == [];
      forall x | x in batch ensures x in s.stream {
        var i :| 0 <= i < |batch| && batch[i] == x;
        assert Idleness(c, s, batch[i]);
      }
      AddsNothing(c, s, e, s', w, []);
    }
  }

  lemma SweepAddFollows(c: Config, s: State, w: nat)
    requires w < |s.procs|
    ensures Follows(c, s, By(w, SweepAdd), SweepAddStep(s, w))
  {
    hide Follows;
    var (p, s') := (s.procs[w], SweepAddStep(s, w));
    if s' == s {
      Same(c, s, By(w, SweepAdd));
    } else {
      assert p.queued == [p.queued[0]] + p.queued[1..];
      AddsOne(c, s, By(w, SweepAdd), s', w, p.queued[0].payload, p.queued[0].count + 1);
    }
  }

  lemma MoverFollows(c: Config, s: State, w: nat, a: Action)
    requires w < |s.procs| && Ascending(s.stream)
    requires a.MoveRead? || a.MoveRemove? || a.RedriveRead? || a.RedriveTurn? || a.RedriveRemove?
    ensures Follows(c, s, By(w, a), ActionStep(c, s, w, a))
  {
    hide Follows, Decode, PayloadOf, NoDup, Missed, RemoveEach, RemoveFirst, FirstOf, XDel, StopStep, ClaimStep,
         SweepVisitStep, SweepPushStep, SweepAddStep, SweepAckStep, SweepDeleteStep, AckStep, AckDeleteStep,
         AckFailsStep, NackStep, NackPushStep, NackAckStep, NackFailsStep, MoveAddStep, RedriveAddStep;
    var s' := ActionStep(c, s, w, a);
    if s' == s { Same(c, s, By(w, a)); } else { AddsNothing(c, s, By(w, a), s', w, []); }
  }

  /** The XADDs of the mover and of a redrive. */
  lemma ReaddFollows(c: Config, s: State, w: nat)
    requires w < |s.procs|
    ensures Follows(c, s, By(w, MoveAdd), MoveAddStep(s, w)) && Follows(c, s, By(w, RedriveAdd), RedriveAddStep(s, w))
  {
    hide Follows, PayloadOf;
    var p := s.procs[w];
    if p.MoveAdding? && p.waiting != [] {
      AddsOne(c, s, By(w, MoveAdd), MoveAddStep(s, w), w, PayloadOf(p.waiting[0]), 0);
    } else {
      Same(c, s, By(w, MoveAdd));
    }
    if p.RedriveAdding? && p.rest != [] {
      AddsOne(c, s, By(w, RedriveAdd), RedriveAddStep(s, w), w, p.rest[0], 0);
    } else {
      Same(c, s, By(w, RedriveAdd));
    }
  }

  lemma ActionFollows(c: Config, s: State, w: nat, a: Action)
    requires w < |s.procs| && Ascending(s.stream)
    ensures Follows(c, s, By(w, a), ActionStep(c, s, w, a))
  {
    hide ActionStep, Follows;
    match a
    case Claim(batch, gone) =>
      ClaimFollows(c, s, w, batch, gone);
      assert ActionStep(c, s, w, a) == ClaimStep(c, s, w, batch, gone) by { Unfold(c, s, w, a); }
    case SweepAdd =>
      SweepAddFollows(c, s, w);
      Unfold(c, s, w, a);
    case MoveAdd =>
      ReaddFollows(c, s, w);
      Unfold(c, s, w, a);
    case RedriveAdd =>
      ReaddFollows(c, s, w);
      Unfold(c, s, w, a);
    case SweepVisit => SweepFollows(c, s, w, a);
    case SweepPush => SweepFollows(c, s, w, a);
    case SweepAck => SweepFollows(c, s, w, a);
    case SweepDelete => SweepFollows(c, s, w, a);
    case MoveRead(_) => MoverFollows(c, s, w, a);
    case MoveRemove => MoverFollows(c, s, w, a);
    case RedriveRead => MoverFollows(c, s, w, a);
    case RedriveTurn => MoverFollows(c, s, w, a);
    case RedriveRemove => MoverFollows(c, s, w, a);
    case _ => SettlerFollows(c, s, w, a);
  }

  lemma Unfold(c: Config, s: State, w: nat, a: Action)
    requires w < |s.procs|
    ensures a.Claim? ==> ActionStep(c, s, w, a) == ClaimStep(c, s, w, a.batch, a.gone)
    ensures a.SweepAdd? ==> ActionStep(c, s, w, a) == SweepAddStep(s, w)
    ensures a.MoveAdd? ==> ActionStep(c, s, w, a) == MoveAddStep(s, w)
    ensures a.RedriveAdd? ==> ActionStep(c, s, w, a) == RedriveAddStep(s, w)
  {
    hide ClaimStep, SweepAddStep, MoveAddStep, RedriveAddStep;
  }

  lemma ReadFollows(c: Config, s: State, max: nat)
    ensures Follows(c, s, Read(max), ReadStep(s, max))
  {
    hide Unread, Readable;
    var (es, s') := (Unread(s.stream, s.lastRead, max), ReadStep(s, max));
    E.UnreadAreMembers(s.stream, s.lastRead, max);
    forall w | |s.procs| <= w < |s'.procs|
      ensures Holds(s'.procs[w]) == [] && HandlesDelivery(s'.procs[w]) && s'.procs[w].entry in s.stream
    {
      assert s'.procs[w] == Delivered(es[w - |s.procs|], false) && es[w - |s.procs|] in es;
    }
  }

  lemma StepFollows(c: Config, s: State, e: Event)
    requires Ascending(s.stream)
    ensures Follows(c, s, e, Step(c, s, e))
  {
    hide ActionStep, ReadStep;
    match e
    case Read(max) => ReadFollows(c, s, max);
    case By(w, a) => if w < |s.procs| { ActionFollows(c, s, w, a); }
    case Send(payload) =>
      var s' := Step(c, s, e);
      assert s'.stream == s.stream + [Entry(s.lastId + 1, payload, 0)];
      assert Addition(s, e, s', Entry(s.lastId + 1, payload, 0));
    case _ =>
  }

  // ----- all runs -----

  lemma Unlogged(c: Config, s: State, log: Log, e: Event, s': State, n: nat)
    requires Lineage(c, s, log, n) && Follows(c, s, e, s') && s'.lastId == s.lastId
    ensures Lineage(c, s', log, n + 1)
  {
    hide Holds, Queued, Source;
    forall w | 0 <= w < |s'.procs| ensures ProcRecorded(c, log, s'.procs[w]) {
      ProcGoesOn(c, s, s', log, log, w);
    }
  }

  /** Entries a process had or the stream has are recorded, now and later. */
  lemma ProcGoesOn(c: Config, s: State, s': State, log: Log, log': Log, w: nat)
    requires AllRecorded(c, s, log) && ProcsGoOn(c, s, s') && w < |s'.procs|
    requires forall id | id in log.entries :: id in log'.entries && log'.entries[id] == log.entries[id]
    ensures ProcRecorded(c, log', s'.procs[w])
  {
    assert |Queued(s'.procs[w])| <= |Holds(s'.procs[w])|;
    hide Holds, Queued;
    if w < |s.procs| {
      assert ProcRecorded(c, log, s.procs[w]) && GoesOnWith(c, s, s.procs[w], s'.procs[w]);
    }
  }

  /** What a sweep copies next: recorded, read before, and not at the limit with one receive more. */
  lemma SourceRead(c: Config, s: State, log: Log, e: Event)
    requires AllRecorded(c, s, log) && Lease(c, s) && Source(s, e).Some?
    ensures var from := Source(s, e).value;
            Recorded(log, from) && from.id in s.history.readAt && !AtLimit(c.limit, from.count + 1)
  {
    var p := s.procs[e.w];
    assert ProcRecorded(c, log, p) && ProcLease(c, s, p);
    assert p.queued[0] in Holds(p) && p.queued[0] in Queued(p);
  }

  lemma LoggedKeeps(c: Config, s: State, log: Log, e: Event, s': State, n: nat)
    requires Lineage(c, s, log, n) && Lease(c, s) && Follows(c, s, e, s') && s'.lastId != s.lastId
    ensures Lineage(c, s', Logged(log, s, e, s'), n + 1)
  {
    hide Holds, Queued, Lease, Source;
    var x: Entry :| s'.stream == s.stream + [x] && Addition(s, e, s', x);
    var log' := Logged(log, s, e, s');
    assert x == s'.stream[|s'.stream| - 1] && log'.entries == log.entries[x.id := x];
    if Source(s, e).Some? { SourceRead(c, s, log, e); }
    forall w | 0 <= w < |s'.procs| ensures ProcRecorded(c, log', s'.procs[w]) {
      ProcGoesOn(c, s, s', log, log', w);
    }
    LinkedAfter(c, s, log, e, s', x);
  }

  lemma LinkedAfter(c: Config, s: State, log: Log, e: Event, s': State, x: Entry)
    requires AllRecorded(c, s, log) && Linked(s, log) && Lease(c, s) && s'.lastId == s.lastId + 1
    requires s'.stream == s.stream + [x] && Addition(s, e, s', x)
    requires s.history.readAt.Keys <= s'.history.readAt.Keys
    ensures Linked(s', Logged(log, s, e, s'))
  {
    hide Lease, Source;
    if Source(s, e).Some? { SourceRead(c, s, log, e); }
    assert x.id !in log.entries && forall id | id in log.entries :: id < x.id;
    hide AllRecorded;
    LinkedBy(s, log, s', Logged(log, s, e, s'), x, Source(s, e));
  }

  /** The log with a new entry, and with the read entry it is a copy of. */
  lemma LinkedBy(s: State, log: Log, s': State, log': Log, x: Entry, source: Option<Entry>)
    requires Linked(s, log) && s.history.readAt.Keys <= s'.history.readAt.Keys
    requires x.id !in log.entries && forall id | id in log.entries :: id < x.id
    requires log'.entries == log.entries[x.id := x]
    requires source.None? ==> x.count == 0 && log'.parent == log.parent
    requires source.Some? ==>
               var from := source.value;
               && Recorded(log, from) && from.id in s.history.readAt && log'.parent == log.parent[x.id := from.id]
               && x.count == from.count + 1 && x.payload == from.payload
    ensures Linked(s', log')
  {
    forall id | id in log'.parent
      ensures id in log'.entries && log'.parent[id] in log'.entries
      ensures CopyOf(s', log', log'.entries[id], log'.entries[log'.parent[id]])
    {
      if id != x.id { assert CopyOf(s, log, log.entries[id], log.entries[log.parent[id]]); }
    }
  }

  lemma {:induction false} RunLineage(c: Config, es: seq<Event>)
    ensures Lineage(c, Run(c, es), LogOf(c, es), |es|)
  {
    hide Step, Lineage, Lease, C.Inv, Follows, Logged;
    if es == [] {
      InitLineage(c);
    } else {
      var (before, e) := (es[..|es| - 1], es[|es| - 1]);
      RunLineage(c, before);
      RunLease(c, before);
      C.RunInv(c, before);
      var (s, s', log) := (Run(c, before), Run(c, es), LogOf(c, before));
      assert Ascending(s.stream) by { InOrder(s); }
      StepFollows(c, s, e);
      if s'.lastId == s.lastId {
        Unlogged(c, s, log, e, s', |before|);
        NotLogged(log, s, e, s');
      } else {
        LoggedKeeps(c, s, log, e, s', |before|);
      }
    }
  }

  lemma InitLineage(c: Config)
    ensures Lineage(c, INIT, Log(map[], map[]), 0)
  {
  }

  lemma InOrder(s: State)
    requires C.Inv(s)
    ensures Ascending(s.stream)
  {
    hide C.ProcsOk;
  }

  lemma NotLogged(log: Log, s: State, e: Event, s': State)
    requires s'.lastId == s.lastId
    ensures Logged(log, s, e, s') == log
  {
  }

  // ----- what it means -----

  /** The log of a run has an entry for every id given out, the stream's among them. */
  lemma LogIsComplete(c: Config, es: seq<Event>)
    ensures forall id :: id in LogOf(c, es).entries <==> 0 < id <= Run(c, es).lastId
    ensures forall e | e in Run(c, es).stream :: Recorded(LogOf(c, es), e)
  {
    hide Run, LogOf, Linked, Recorded;
    RunLineage(c, es);
  }

  /** The ids that entry `id` was copied from, oldest first, then `id`; a copy is younger than what it copies. */
  ghost function Chain(log: Log, id: nat): seq<nat> {
    if id in log.parent && log.parent[id] < id then Chain(log, log.parent[id]) + [id] else [id]
  }

  ghost predicate IsChain(s: State, log: Log, chain: seq<nat>, id: nat)
    requires id in log.entries
  {
    && |chain| == log.entries[id].count + 1 && chain[|chain| - 1] == id && chain[0] !in log.parent
    && (forall i | 0 <= i < |chain| :: OnChain(log, chain[i], i, log.entries[id].payload))
    && (forall i | 0 < i < |chain| :: CopyOf(s, log, log.entries[chain[i]], log.entries[chain[i - 1]]))
  }

  /** The entry at place `i` of a chain carries count `i` and the payload of the chain. */
  ghost predicate OnChain(log: Log, id: nat, i: nat, payload: Bytes) {
    id in log.entries && log.entries[id] == Entry(id, payload, i)
  }

  lemma {:induction false} ChainShape(s: State, log: Log, id: nat)
    requires Linked(s, log) && id in log.entries
    ensures IsChain(s, log, Chain(log, id), id)
  {
    if id in log.parent {
      var from := log.parent[id];
      assert CopyOf(s, log, log.entries[id], log.entries[from]);
      ChainShape(s, log, from);
    }
  }

  lemma ReadOnceEach(s: State, id: nat)
    requires ReadOk(s)
    ensures multiset(s.history.readIds)[id] == if id in s.history.readAt then 1 else 0
  {
    NoDupBag(s.history.readIds, id);
  }

  /**
   * The count stored in an entry, deleted or not, is the number of reads its chain has had before it: each earlier
   * entry of the chain was read exactly once, and the entry itself at most once.
   */
  lemma CountIsReads(c: Config, es: seq<Event>, id: nat)
    requires id in LogOf(c, es).entries
    ensures var (s, log) := (Run(c, es), LogOf(c, es));
            var chain := Chain(log, id);
            && IsChain(s, log, chain, id) && NoDup(chain)
            && (forall i | 0 <= i < |chain| - 1 :: multiset(s.history.readIds)[chain[i]] == 1)
            && multiset(s.history.readIds)[id] <= 1
  {
    hide Run, LogOf, Chain, AllRecorded, AllBounded;
    RunLineage(c, es);
    RunLease(c, es);
    var (s, log) := (Run(c, es), LogOf(c, es));
    var chain := Chain(log, id);
    ChainShape(s, log, id);
    forall i | 0 <= i < |chain| - 1 ensures multiset(s.history.readIds)[chain[i]] == 1 {
      assert CopyOf(s, log, log.entries[chain[i + 1]], log.entries[chain[i]]);
      assert OnChain(log, chain[i], i, log.entries[id].payload);
      ReadOnceEach(s, chain[i]);
    }
    forall i, j | 0 <= i < j < |chain| ensures chain[i] != chain[j] {
      assert OnChain(log, chain[i], i, log.entries[id].payload) && OnChain(log, chain[j], j, log.entries[id].payload);
    }
    ReadOnceEach(s, id);
  }

  /** Delivery bound: with a retry limit no chain ever has more than `max(1, max_receives)` reads. */
  lemma DeliveryBound(c: Config, es: seq<Event>, id: nat)
    requires c.limit.Some? && id in LogOf(c, es).entries
    ensures |Chain(LogOf(c, es), id)| <= Max1(c.limit.value)
  {
    hide Run, LogOf, Chain, AllRecorded;
    RunLineage(c, es);
    ChainShape(Run(c, es), LogOf(c, es), id);
    assert Bounded(c, |es|, LogOf(c, es).entries[id]);
  }

  /**
   * As long as a retry limit or the length of the run keeps counts below `usize::MAX`, every count in the stream can
   * be read: a group read of any length hands out every entry it takes.
   */
  lemma CountsReadable(c: Config, es: seq<Event>, max: nat)
    requires (c.limit.Some? && c.limit.value <= USIZE_MAX) || |es| < USIZE_MAX
    ensures forall e | e in Run(c, es).stream :: Readable(e)
    ensures var s := Run(c, es);
            ReadStep(s, max).procs == s.procs + Deliveries(Unread(s.stream, s.lastRead, max))
  {
    hide Run, LogOf, Linked, Unread;
    RunLineage(c, es);
    var (s, log) := (Run(c, es), LogOf(c, es));
    forall e | e in s.stream ensures Readable(e) {
      assert Recorded(log, e) && Bounded(c, |es|, log.entries[e.id]);
    }
    C.RunInv(c, es);
    InOrder(s);
    C.UnreadShape(s.stream, s.lastRead, max);
  }

  /** Nor does a sweep ever meet a count it cannot read, even in an entry deleted since its claim. */
  lemma SweepReads(c: Config, es: seq<Event>, w: nat, e: Entry)
    requires w < |Run(c, es).procs| && e in Holds(Run(c, es).procs[w])
    requires (c.limit.Some? && c.limit.value <= USIZE_MAX) || |es| < USIZE_MAX
    ensures Readable(e)
  {
    hide Run, LogOf, Linked, Holds;
    RunLineage(c, es);
    var log := LogOf(c, es);
    assert ProcRecorded(c, log, Run(c, es).procs[w]);
    assert Recorded(log, e) && Bounded(c, |es|, log.entries[e.id]);
  }

  // ----- who is retried -----

  /** How many reads the entry with id `id` and those it was copied from have had, once it is read itself. */
  ghost function Had(log: Log, id: nat): nat { |Chain(log, id)| }

  lemma HadReads(c: Config, es: seq<Event>, e: Entry)
    requires Recorded(LogOf(c, es), e)
    requires (c.limit.Some? && c.limit.value <= USIZE_MAX) || |es| < USIZE_MAX
    ensures Had(LogOf(c, es), e.id) == e.count + 1 && Readable(e)
    ensures c.limit.Some? ==> Had(LogOf(c, es), e.id) <= Max1(c.limit.value)
  {
    hide Run, LogOf, Chain, AllRecorded;
    RunLineage(c, es);
    ChainShape(Run(c, es), LogOf(c, es), e.id);
    assert Bounded(c, |es|, LogOf(c, es).entries[e.id]);
  }

  /** What is still in the stream under an id that was given out is the entry that got it, so its body is found. */
  lemma BodyStays(c: Config, es: seq<Event>, e: Entry)
    requires Recorded(LogOf(c, es), e)
    ensures BodyOf(Run(c, es).stream, e.id) == if Present(Run(c, es).stream, e.id) then Some(e.payload) else None
  {
    RunLineage(c, es);
    C.RunInv(c, es);
    InOrder(Run(c, es));
    hide Run, LogOf, Linked, AllBounded, Ascending, BodyOf;
    var stream := Run(c, es).stream;
    if Present(stream, e.id) {
      var i :| 0 <= i < |stream| && stream[i].id == e.id;
      assert stream[i] in stream && Recorded(LogOf(c, es), stream[i]);
      E.BodyFound(stream, e);
    } else {
      forall x | x in stream ensures x.id != e.id {
        var i :| 0 <= i < |stream| && stream[i] == x;
      }
      E.BodyGone(stream, e.id);
    }
  }

  /**
   * A sweep queues a claimed entry that was read fewer times than the limit for its copy, and fetches the payload of
   * any other for the dead-letter list: then there have been exactly `max(1, max_receives)` reads. It ends only if
   * an entry to dead-letter is gone.
   */
  lemma SweepDecides(c: Config, es: seq<Event>, w: nat)
    requires w < |Run(c, es).procs| && Run(c, es).procs[w].Claimed? && Run(c, es).procs[w].todo != []
    requires (c.limit.Some? && c.limit.value <= USIZE_MAX) || |es| < USIZE_MAX
    ensures var (s, s') := (Run(c, es), Step(c, Run(c, es), By(w, SweepVisit)));
            var Claimed(todo, queued, done, at) := s.procs[w];
            var (e, had) := (todo[0], Had(LogOf(c, es), todo[0].id));
            && had == e.count + 1 && s'.stream == s.stream && s'.dlq == s.dlq
            && if c.limit.None? || had < c.limit.value then s'.procs[w] == Claimed(todo[1..], queued + [e], done, at)
               else && had == Max1(c.limit.value)
                    && s'.procs[w] == if Present(s.stream, e.id) then ClaimFetched(todo, queued, done, at, e.payload)
                                      else Idle
  {
    hide Run, LogOf, Had, Present, BodyOf, Owes, Recorded;
    var e := Run(c, es).procs[w].todo[0];
    assert e in Holds(Run(c, es).procs[w]);
    HeldRecorded(c, es, w);
    HadReads(c, es, e);
    BodyStays(c, es, e);
  }

  lemma HeldRecorded(c: Config, es: seq<Event>, w: nat)
    requires w < |Run(c, es).procs|
    ensures ProcRecorded(c, LogOf(c, es), Run(c, es).procs[w])
  {
    hide Run, LogOf, ProcRecorded;
    RunLineage(c, es);
  }

  lemma DeliveryRecorded(c: Config, es: seq<Event>, w: nat)
    requires w < |Run(c, es).procs| && Run(c, es).procs[w].Delivered?
    ensures Recorded(LogOf(c, es), Run(c, es).procs[w].entry)
  {
    hide Run, LogOf, Recorded;
    HeldRecorded(c, es, w);
  }

  /** So does `nack`, which leaves an entry below the limit to the sweep, and does nothing for one that is gone. */
  lemma NackDecides(c: Config, es: seq<Event>, w: nat)
    requires w < |Run(c, es).procs| && Run(c, es).procs[w].Delivered?
    requires (c.limit.Some? && c.limit.value <= USIZE_MAX) || |es| < USIZE_MAX
    ensures var (s, s') := (Run(c, es), Step(c, Run(c, es), By(w, Nack)));
            var Delivered(e, settled) := s.procs[w];
            var had := Had(LogOf(c, es), e.id);
            && had == e.count + 1 && s'.stream == s.stream && s'.pending == s.pending && s'.dlq == s.dlq
            && if c.limit.None? || had < c.limit.value then s'.procs[w] == Delivered(e, true)
               else && had == Max1(c.limit.value)
                    && s'.procs[w] == if Present(s.stream, e.id) then NackFetched(e, settled, e.payload)
                                      else Delivered(e, settled)
  {
    hide Run, LogOf, Had, Present, BodyOf, ProcRecorded;
    var e := Run(c, es).procs[w].entry;
    DeliveryRecorded(c, es, w);
    HadReads(c, es, e);
    BodyStays(c, es, e);
  }
}

/**
 * The timing of the stream protocol: a read entry is left alone for `ack_deadline_ms`, and an ack in that time settles
 * it for good.
 */
module StreamsLease {
  import opened Codec
  import opened RedisLists
  import opened StreamsProtocol
  import C = StreamsConservation

  predicate Sweeps(p: Proc) { p.Claimed? || p.ClaimFetched? }

  /** The entries a sweep has claimed. */
  function Holds(p: Proc): seq<Entry> {
    if Sweeps(p) then p.todo + p.queued + p.done else []
  }

  /** The deliveries whose acker is still around. */
  predicate HandlesDelivery(p: Proc) { p.Delivered? || p.NackFetched? || p.NackPushed? || p.AckDeleting? }

  ghost predicate ProcLease(c: Config, s: State, p: Proc) {
    && (HandlesDelivery(p) ==> p.entry.id in s.history.readAt)
    && (Sweeps(p) ==> p.at <= s.clock)
    && (forall e | e in Holds(p) ::
          && e.id in s.history.readAt && s.history.readAt[e.id] + c.ackDeadline <= p.at
          && (e.id in s.pending ==> s.pending[e.id] >= p.at))
  }

  ghost predicate ProcsLease(c: Config, s: State) {
    forall w | 0 <= w < |s.procs| :: ProcLease(c, s, s.procs[w])
  }

  ghost predicate PendingOk(s: State) {
    forall id | id in s.pending :: id in s.history.readAt && s.history.readAt[id] <= s.pending[id] <= s.clock
  }

  ghost predicate ReadOk(s: State) {
    && NoDup(s.history.readIds)
    && (forall id :: id in s.history.readIds <==> id in s.history.readAt)
    && (forall id | id in s.history.readAt :: id <= s.lastRead)
  }

  /** A sweep's copy of an entry comes no earlier than the deadline after the entry was read. */
  ghost predicate MoveOk(c: Config, s: State, m: Move) {
    m.id in s.history.readAt && s.history.readAt[m.id] + c.ackDeadline <= m.time <= s.clock
  }

  ghost predicate MovedOk(c: Config, s: State) {
    forall i | 0 <= i < |s.history.moved| :: MoveOk(c, s, s.history.moved[i])
  }

  /** Nobody has requeued entry `id`, holds it, or can still claim it. */
  ghost predicate Settled(s: State, id: nat) {
    && id !in s.pending
    && (forall i | 0 <= i < |s.history.moved| :: s.history.moved[i].id != id)
    && (forall w, e | 0 <= w < |s.procs| && e in Holds(s.procs[w]) :: e.id != id)
  }

  ghost predicate EarlyAck(c: Config, s: State, id: nat) {
    id in s.history.ackedAt && id in s.history.readAt && s.history.ackedAt[id] < s.history.readAt[id] + c.ackDeadline
  }

  ghost predicate EarlyOk(c: Config, s: State) {
    forall id | EarlyAck(c, s, id) :: Settled(s, id)
  }

  ghost predicate AckedWereRead(s: State) {
    forall id | id in s.history.ackedAt :: id in s.history.readAt
  }

  ghost predicate Lease(c: Config, s: State) {
    PendingOk(s) && ReadOk(s) && MovedOk(c, s) && AckedWereRead(s) && EarlyOk(c, s) && ProcsLease(c, s)
  }

  // ----- steps that hand nothing out -----

  /** A process changes hands of nothing new; pending entries may only go away. */
  lemma LeaseFrame(c: Config, s: State, s': State, w: nat)
    requires Lease(c, s) && w < |s.procs| == |s'.procs| && s'.procs == s.procs[w := s'.procs[w]]
    requires s'.pending.Keys <= s.pending.Keys && forall id | id in s'.pending :: s'.pending[id] == s.pending[id]
    requires s'.clock == s.clock && s'.lastRead == s.lastRead
    requires s'.history.readAt == s.history.readAt && s'.history.readIds == s.history.readIds
    requires s'.history.ackedAt == s.history.ackedAt && s'.history.moved == s.history.moved
    requires ProcLease(c, s, s'.procs[w]) && forall e | e in Holds(s'.procs[w]) :: e in Holds(s.procs[w])
    ensures Lease(c, s')
  {
    hide Holds, Sweeps;
    forall id | EarlyAck(c, s', id) ensures Settled(s', id) {
      assert EarlyAck(c, s, id) && Settled(s, id);
    }
  }

  lemma AckLease(c: Config, s: State, w: nat)
    requires Lease(c, s) && w < |s.procs|
    ensures Lease(c, AckStep(s, w))
  {
    hide GoneBody, Present;
    var p := s.procs[w];
    assert ProcLease(c, s, p);
    if p.Delivered? && !p.settled {
      var s' := AckStep(s, w);
      forall id | EarlyAck(c, s', id) ensures Settled(s', id) {
        if id in s.history.ackedAt {
          assert EarlyAck(c, s, id) && Settled(s, id);
        } else {
          AckSettles(c, s, s', w, id);
        }
      }
    }
  }

  /** At an early ack no sweep can have claimed the entry yet. */
  lemma AckSettles(c: Config, s: State, s': State, w: nat, id: nat)
    requires Lease(c, s) && w < |s.procs| == |s'.procs| && s'.procs == s.procs[w := s'.procs[w]]
    requires id in s.history.readAt && s.clock < s.history.readAt[id] + c.ackDeadline
    requires id !in s'.pending && s'.history.moved == s.history.moved && Holds(s'.procs[w]) == []
    ensures Settled(s', id)
  {
    forall i | 0 <= i < |s.history.moved| ensures s.history.moved[i].id != id {
      assert MoveOk(c, s, s.history.moved[i]);
    }
    forall v, e | 0 <= v < |s'.procs| && e in Holds(s'.procs[v]) ensures e.id != id {
      assert v != w && ProcLease(c, s, s.procs[v]);
    }
  }

  lemma TickLease(c: Config, s: State, ms: nat)
    requires Lease(c, s)
    ensures Lease(c, s.(clock := s.clock + ms))
  {
    hide Holds;
    var s' := s.(clock := s.clock + ms);
    forall w | 0 <= w < |s'.procs| ensures ProcLease(c, s', s'.procs[w]) { assert ProcLease(c, s, s.procs[w]); }
    forall i | 0 <= i < |s'.history.moved| ensures MoveOk(c, s', s'.history.moved[i]) {
      assert MoveOk(c, s, s.history.moved[i]);
    }
    forall id | EarlyAck(c, s', id) ensures Settled(s', id) { assert EarlyAck(c, s, id) && Settled(s, id); }
  }

  /** New idle processes, new messages: nothing leased changes. */
  lemma ArrivalLease(c: Config, s: State, s': State)
    requires Lease(c, s) && (s'.procs == s.procs || s'.procs == s.procs + [Idle])
    requires s'.pending == s.pending && s'.clock == s.clock && s'.lastRead == s.lastRead
    requires s'.history.readAt == s.history.readAt && s'.history.readIds == s.history.readIds
    requires s'.history.ackedAt == s.history.ackedAt && s'.history.moved == s.history.moved
    ensures Lease(c, s')
  {
    forall w | 0 <= w < |s'.procs| ensures ProcLease(c, s', s'.procs[w]) {
      if w < |s.procs| { assert ProcLease(c, s, s.procs[w]); }
    }
    forall id | EarlyAck(c, s', id) ensures Settled(s', id) { assert EarlyAck(c, s, id) && Settled(s, id); }
  }

  // ----- steps that copy -----

  /** A sweep copies an entry it holds. */
  lemma MoveLease(c: Config, s: State, s': State, w: nat, e: Entry)
    requires Lease(c, s) && w < |s.procs| == |s'.procs| && s'.procs == s.procs[w := s'.procs[w]]
    requires Sweeps(s.procs[w]) && e in Holds(s.procs[w])
    requires s'.pending == s.pending && s'.clock == s.clock && s'.lastRead == s.lastRead
    requires s'.history.readAt == s.history.readAt && s'.history.readIds == s.history.readIds
    requires s'.history.ackedAt == s.history.ackedAt
    requires s'.history.moved == s.history.moved + [Move(e.id, s.clock)]
    requires Sweeps(s'.procs[w]) && s'.procs[w].at == s.procs[w].at
    requires forall h | h in Holds(s'.procs[w]) :: h in Holds(s.procs[w])
    ensures Lease(c, s')
  {
    hide Holds;
    assert ProcLease(c, s, s.procs[w]);
    forall i | 0 <= i < |s'.history.moved| ensures MoveOk(c, s', s'.history.moved[i]) {
      if i < |s.history.moved| { assert MoveOk(c, s, s.history.moved[i]); }
    }
    forall id | EarlyAck(c, s', id) ensures Settled(s', id) {
      assert EarlyAck(c, s, id) && Settled(s, id);
      assert e.id != id;
    }
  }

  lemma SweepCopyLease(c: Config, s: State, w: nat)
    requires Lease(c, s) && w < |s.procs|
    ensures Lease(c, SweepPushStep(s, w)) && Lease(c, SweepAddStep(s, w))
  {
    hide Lease;
    var p := s.procs[w];
    if p.ClaimFetched? && p.todo != [] {
      assert p.todo == [p.todo[0]] + p.todo[1..];
      MoveLease(c, s, SweepPushStep(s, w), w, p.todo[0]);
    }
    if p.Claimed? && p.todo == [] && p.queued != [] {
      assert p.queued == [p.queued[0]] + p.queued[1..];
      MoveLease(c, s, SweepAddStep(s, w), w, p.queued[0]);
    }
  }

  // ----- steps that hand out -----

  lemma ClaimLease(c: Config, s: State, w: nat, batch: seq<Entry>, gone: set<nat>)
    requires Lease(c, s) && w < |s.procs|
    ensures Lease(c, ClaimStep(c, s, w, batch, gone))
  {
    hide Present, Holds;
    if s.procs[w] == Idle && Claimable(c, s, batch, gone) {
      var s' := ClaimStep(c, s, w, batch, gone);
      ClaimedPending(c, s, batch, gone);
      ClaimedProcs(c, s, s', w, batch);
      forall id | EarlyAck(c, s', id) ensures Settled(s', id) {
        assert EarlyAck(c, s, id) && Settled(s, id);
        ClaimSpares(c, s, s', w, batch, id);
      }
    }
  }

  /** A claim takes what is pending, and sets the time of nothing else. */
  lemma ClaimedPending(c: Config, s: State, batch: seq<Entry>, gone: set<nat>)
    requires PendingOk(s) && Claimable(c, s, batch, gone)
    ensures forall e | e in batch :: Idleness(c, s, e) && e.id in s.history.readAt
    ensures var p := HandOut(s.pending, batch, s.clock) - gone;
            && (forall id | id in p :: id in s.pending && (p[id] == s.pending[id] || p[id] == s.clock))
            && (forall e | e in batch && e.id in p :: p[e.id] == s.clock)
  {
    hide Present;
    forall e | e in batch ensures Idleness(c, s, e) && e.id in s.history.readAt && e.id in IdSet(batch) {
      var i :| 0 <= i < |batch| && batch[i] == e;
      assert Idleness(c, s, batch[i]);
    }
    forall id | id in IdSet(batch) ensures id in s.pending {
      var i :| 0 <= i < |batch| && batch[i].id == id;
      assert Idleness(c, s, batch[i]);
    }
  }

  lemma ClaimedProcs(c: Config, s: State, s': State, w: nat, batch: seq<Entry>)
    requires Lease(c, s) && w < |s.procs| && s'.procs == s.procs[w := Claiming(batch, s.clock)]
    requires forall e | e in batch :: Idleness(c, s, e) && e.id in s.history.readAt
    requires s'.clock == s.clock && s'.history == s.history
    requires forall id | id in s'.pending ::
               id in s.pending && (s'.pending[id] == s.pending[id] || s'.pending[id] == s.clock)
    requires forall e | e in batch && e.id in s'.pending :: s'.pending[e.id] == s.clock
    ensures ProcsLease(c, s')
  {
    assert Holds(s'.procs[w]) == batch;
    forall v | 0 <= v < |s'.procs| ensures ProcLease(c, s', s'.procs[v]) {
      if v != w {
        assert ProcLease(c, s, s.procs[v]);
      } else {
        assert PendingOk(s);
      }
    }
  }

  lemma ClaimSpares(c: Config, s: State, s': State, w: nat, batch: seq<Entry>, id: nat)
    requires Settled(s, id) && w < |s.procs| && s'.procs == s.procs[w := Claiming(batch, s.clock)]
    requires forall e | e in batch :: e.id in s.pending
    requires s'.pending.Keys <= s.pending.Keys && s'.history == s.history
    ensures Settled(s', id)
  {
    assert Holds(s'.procs[w]) == batch;
    forall v, e | 0 <= v < |s'.procs| && e in Holds(s'.procs[v]) ensures e.id != id {
      if v != w { assert e in Holds(s.procs[v]); }
    }
  }

  /** Only unread entries are read, so the lease of every other entry is untouched. */
  lemma ReadLease(c: Config, s: State, max: nat)
    requires Lease(c, s) && C.Inv(s)
    ensures Lease(c, ReadStep(s, max))
  {
    hide Unread, Readable, C.ProcsOk, Lease;
    var es := Unread(s.stream, s.lastRead, max);
    C.UnreadShape(s.stream, s.lastRead, max);
    if es != [] {
      var s' := ReadStep(s, max);
      forall i | 0 <= i < |es| ensures s.lastRead < es[i].id <= s'.lastRead {
        assert es[i] in es && es[|es| - 1] in es;
      }
      ReadLeaseOf(c, s, s', es);
    }
  }

  lemma ReadLeaseOf(c: Config, s: State, s': State, es: seq<Entry>)
    requires Lease(c, s) && Ascending(es) && s'.lastRead >= s.lastRead
    requires forall i | 0 <= i < |es| :: s.lastRead < es[i].id <= s'.lastRead
    requires s'.pending == HandOut(s.pending, es, s.clock) && s'.clock == s.clock
    requires s'.history.readAt == HandOut(s.history.readAt, es, s.clock)
    requires s'.history.readIds == s.history.readIds + Ids(es)
    requires s'.history.ackedAt == s.history.ackedAt && s'.history.moved == s.history.moved
    requires s'.procs == s.procs || s'.procs == s.procs + Deliveries(es)
    ensures Lease(c, s')
  {
    forall id ensures id in s.history.readAt ==> id !in IdSet(es) && s'.history.readAt[id] == s.history.readAt[id] {
    }
    ReadHistory(s, s', es);
    forall i | 0 <= i < |s'.history.moved| ensures MoveOk(c, s', s'.history.moved[i]) {
      assert MoveOk(c, s, s.history.moved[i]);
    }
    forall w | 0 <= w < |s'.procs| ensures ProcLease(c, s', s'.procs[w]) {
      if w < |s.procs| {
        assert ProcLease(c, s, s.procs[w]);
      } else {
        assert s'.procs[w] == Delivered(es[w - |s.procs|], false);
        assert es[w - |s.procs|].id in IdSet(es);
      }
    }
    ReadSpares(c, s, s', es);
  }

  lemma ReadSpares(c: Config, s: State, s': State, es: seq<Entry>)
    requires EarlyOk(c, s) && ReadOk(s) && MovedOk(c, s) && ProcsLease(c, s)
    requires forall i | 0 <= i < |es| :: s.lastRead < es[i].id
    requires s'.pending == HandOut(s.pending, es, s.clock)
    requires s'.history.readAt == HandOut(s.history.readAt, es, s.clock)
    requires s'.history.ackedAt == s.history.ackedAt && s'.history.moved == s.history.moved
    requires s'.procs == s.procs || s'.procs == s.procs + Deliveries(es)
    requires AckedWereRead(s)
    ensures EarlyOk(c, s')
  {
    forall id | EarlyAck(c, s', id) ensures Settled(s', id) {
      assert id in s.history.readAt && id !in IdSet(es);
      assert EarlyAck(c, s, id) && Settled(s, id);
      forall w, e | 0 <= w < |s'.procs| && e in Holds(s'.procs[w]) ensures e.id != id {
        assert w < |s.procs| && s'.procs[w] == s.procs[w];
      }
    }
  }

  lemma ReadHistory(s: State, s': State, es: seq<Entry>)
    requires ReadOk(s) && Ascending(es) && s'.lastRead >= s.lastRead
    requires forall i | 0 <= i < |es| :: s.lastRead < es[i].id <= s'.lastRead
    requires s'.history.readAt == HandOut(s.history.readAt, es, s.clock)
    requires s'.history.readIds == s.history.readIds + Ids(es)
    ensures ReadOk(s')
  {
    var (a, b) := (s.history.readIds, Ids(es));
    forall i, j | 0 <= i < j < |a + b| ensures (a + b)[i] != (a + b)[j] {
      if i < |a| <= j { assert a[i] in a && b[j - |a|] == es[j - |a|].id; }
    }
    forall id ensures id in a + b <==> id in s'.history.readAt {
      if id in b {
        var i :| 0 <= i < |b| && b[i] == id;
        assert es[i].id in IdSet(es);
      }
      if id in IdSet(es) {
        var i :| 0 <= i < |es| && es[i].id == id;
        assert b[i] == id;
      }
    }
  }

  // ----- all steps, all runs -----

  lemma AckEndLease(c: Config, s: State, w: nat, replyLost: bool)
    requires Lease(c, s) && w < |s.procs|
    ensures Lease(c, AckDeleteStep(s, w, replyLost)) && Lease(c, AckFailsStep(s, w))
  {
    hide Lease, XDel;
    assert ProcLease(c, s, s.procs[w]) by { ProcOf(c, s, w); }
    LeaseFrame(c, s, AckDeleteStep(s, w, replyLost), w);
    LeaseFrame(c, s, AckFailsStep(s, w), w);
  }

  lemma StopLease(c: Config, s: State, w: nat)
    requires Lease(c, s) && w < |s.procs|
    ensures Lease(c, StopStep(s, w)) && Lease(c, NackFailsStep(s, w))
  {
    hide Lease, Owes;
    assert ProcLease(c, s, s.procs[w]) by { ProcOf(c, s, w); }
    LeaseFrame(c, s, StopStep(s, w), w);
    LeaseFrame(c, s, NackFailsStep(s, w), w);
  }

  lemma ProcOf(c: Config, s: State, w: nat)
    requires Lease(c, s) && w < |s.procs|
    ensures ProcLease(c, s, s.procs[w])
  {
  }

  lemma NackLease(c: Config, s: State, w: nat)
    requires Lease(c, s) && w < |s.procs|
    ensures Lease(c, NackStep(c, s, w)) && Lease(c, NackPushStep(s, w)) && Lease(c, NackAckStep(s, w))
  {
    hide Lease, BodyOf, GoneBody;
    assert ProcLease(c, s, s.procs[w]) by { ProcOf(c, s, w); }
    LeaseFrame(c, s, NackStep(c, s, w), w);
    LeaseFrame(c, s, NackPushStep(s, w), w);
    LeaseFrame(c, s, NackAckStep(s, w), w);
  }

  lemma VisitLease(c: Config, s: State, w: nat)
    requires Lease(c, s) && w < |s.procs|
    ensures Lease(c, SweepVisitStep(c, s, w))
  {
    hide Lease, BodyOf, Owes;
    assert ProcLease(c, s, s.procs[w]) by { ProcOf(c, s, w); }
    VisitHolds(c, s, w);
    LeaseFrame(c, s, SweepVisitStep(c, s, w), w);
  }

  lemma SweepEndLease(c: Config, s: State, w: nat)
    requires Lease(c, s) && w < |s.procs|
    ensures Lease(c, SweepAckStep(s, w)) && Lease(c, SweepDeleteStep(s, w))
  {
    hide Lease, GoneBodies, XDel, IdSet;
    assert ProcLease(c, s, s.procs[w]) by { ProcOf(c, s, w); }
    LeaseFrame(c, s, SweepAckStep(s, w), w);
    LeaseFrame(c, s, SweepDeleteStep(s, w), w);
  }

  lemma VisitHolds(c: Config, s: State, w: nat)
    requires w < |s.procs|
    ensures forall e | e in Holds(SweepVisitStep(c, s, w).procs[w]) :: e in Holds(s.procs[w])
  {
    hide BodyOf, Owes;
    var p := s.procs[w];
    if p.Claimed? && p.todo != [] {
      assert p.todo == [p.todo[0]] + p.todo[1..];
    }
  }

  lemma MoverLease(c: Config, s: State, w: nat, members: seq<Key>)
    requires Lease(c, s) && w < |s.procs|
    ensures Lease(c, MoveReadStep(s, w, members)) && Lease(c, MoveAddStep(s, w)) && Lease(c, MoveRemoveStep(s, w))
  {
    hide Lease, Decode, PayloadOf, NoDup, Missed, RemoveEach;
    assert ProcLease(c, s, s.procs[w]) by { ProcOf(c, s, w); }
    LeaseFrame(c, s, MoveReadStep(s, w, members), w);
    LeaseFrame(c, s, MoveAddStep(s, w), w);
    LeaseFrame(c, s, MoveRemoveStep(s, w), w);
  }

  lemma RedriveAddLease(c: Config, s: State, w: nat)
    requires Lease(c, s) && w < |s.procs|
    ensures Lease(c, RedriveReadStep(c, s, w)) && Lease(c, RedriveAddStep(s, w))
  {
    hide Lease, FirstOf;
    assert ProcLease(c, s, s.procs[w]) by { ProcOf(c, s, w); }
    LeaseFrame(c, s, RedriveReadStep(c, s, w), w);
    LeaseFrame(c, s, RedriveAddStep(s, w), w);
  }

  lemma RedriveRemoveLease(c: Config, s: State, w: nat)
    requires Lease(c, s) && w < |s.procs|
    ensures Lease(c, RedriveTurnStep(s, w)) && Lease(c, RedriveRemoveStep(s, w))
  {
    hide Lease, RemoveFirst;
    assert ProcLease(c, s, s.procs[w]) by { ProcOf(c, s, w); }
    LeaseFrame(c, s, RedriveTurnStep(s, w), w);
    LeaseFrame(c, s, RedriveRemoveStep(s, w), w);
  }

  lemma ActionLease(c: Config, s: State, w: nat, a: Action)
    requires Lease(c, s) && w < |s.procs|
    ensures Lease(c, ActionStep(c, s, w, a))
  {
    hide StopStep, AckStep, AckDeleteStep, AckFailsStep, NackStep, NackPushStep, NackAckStep, NackFailsStep,
         ClaimStep, SweepVisitStep, SweepPushStep, SweepAddStep, SweepAckStep, SweepDeleteStep, MoveReadStep,
         MoveAddStep, MoveRemoveStep, RedriveReadStep, RedriveAddStep, RedriveTurnStep, RedriveRemoveStep, Lease;
    match a
    case Stop => StopLease(c, s, w);
    case Ack => AckLease(c, s, w);
    case AckDelete(replyLost) => AckEndLease(c, s, w, replyLost);
    case AckFails => AckEndLease(c, s, w, false);
    case Nack => NackLease(c, s, w);
    case NackPush => NackLease(c, s, w);
    case NackAck => NackLease(c, s, w);
    case NackFails => StopLease(c, s, w);
    case Claim(batch, gone) => ClaimLease(c, s, w, batch, gone);
    case SweepVisit => VisitLease(c, s, w);
    case SweepPush => SweepCopyLease(c, s, w);
    case SweepAdd => SweepCopyLease(c, s, w);
    case SweepAck => SweepEndLease(c, s, w);
    case SweepDelete => SweepEndLease(c, s, w);
    case MoveRead(members) => MoverLease(c, s, w, members);
    case MoveAdd => MoverLease(c, s, w, []);
    case MoveRemove => MoverLease(c, s, w, []);
    case RedriveRead => RedriveAddLease(c, s, w);
    case RedriveAdd => RedriveAddLease(c, s, w);
    case RedriveTurn => RedriveRemoveLease(c, s, w);
    case RedriveRemove => RedriveRemoveLease(c, s, w);
  }

  lemma StepLease(c: Config, s: State, e: Event)
    requires Lease(c, s) && C.Inv(s)
    ensures Lease(c, Step(c, s, e))
  {
    hide ActionStep, ReadStep, Lease, C.Inv;
    match e
    case Tick(ms) => TickLease(c, s, ms);
    case Spawn => ArrivalLease(c, s, Step(c, s, e));
    case Send(payload) => ArrivalLease(c, s, Step(c, s, e));
    case SendScheduled(key, rank) => ArrivalLease(c, s, Step(c, s, e));
    case Read(max) => ReadLease(c, s, max);
    case By(w, a) => if w < |s.procs| { ActionLease(c, s, w, a); }
  }

  lemma {:induction false} RunLease(c: Config, es: seq<Event>)
    ensures Lease(c, Run(c, es))
  {
    hide Step, Lease, C.Inv;
    if es == [] {
      InitLease(c);
    } else {
      RunLease(c, es[..|es| - 1]);
      C.RunInv(c, es[..|es| - 1]);
      StepLease(c, Run(c, es[..|es| - 1]), es[|es| - 1]);
    }
  }

  lemma InitLease(c: Config)
    ensures Lease(c, INIT)
  {
  }

  /** A sweep never requeues or dead-letters an entry before `ack_deadline_ms` after the entry was read. */
  lemma NotRetriedEarly(c: Config, es: seq<Event>, i: nat)
    requires i < |Run(c, es).history.moved|
    ensures var h := Run(c, es).history;
            h.moved[i].id in h.readAt && h.moved[i].time >= h.readAt[h.moved[i].id] + c.ackDeadline
  {
    hide Run;
    RunLease(c, es);
    assert MoveOk(c, Run(c, es), Run(c, es).history.moved[i]);
  }

  /** Every entry is delivered under its id at most once. */
  lemma ReadOnce(c: Config, es: seq<Event>)
    ensures NoDup(Run(c, es).history.readIds)
  {
    hide Run;
    RunLease(c, es);
  }

  /** An ack whose XACK runs within the deadline of the read is final: the entry is never requeued by any sweep. */
  lemma EarlyAckIsFinal(c: Config, es: seq<Event>, id: nat)
    requires var h := Run(c, es).history;
             id in h.ackedAt && id in h.readAt && h.ackedAt[id] < h.readAt[id] + c.ackDeadline
    ensures var s := Run(c, es);
            id !in s.pending && forall i | 0 <= i < |s.history.moved| :: s.history.moved[i].id != id
  {
    hide Run;
    RunLease(c, es);
    assert EarlyAck(c, Run(c, es), id);
  }
}

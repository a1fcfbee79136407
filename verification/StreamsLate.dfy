/**
 * Sweeps of the stream protocol have to be timely: from any timely run, a sweep that outlasts the deadline of its
 * claim, or stops between a copy and its acknowledgement, lets another sweep copy the same entry again.
 */
module StreamsLate {
  import opened Bytes
  import opened Codec
  import opened RedisLists
  import opened Retry
  import opened StreamsProtocol
  import opened StreamEntries
  import C = StreamsConservation
  import opened StreamsLease
  import opened StreamsSweeps

  // ----- in a timely run a sweep's claims are the latest -----

  /** What a sweep holds was last handed out by its own claim, and it keeps only entries it could read. */
  ghost predicate OwnClaims(s: State, p: Proc) {
    Sweeps(p) ==>
      && (forall e | e in Holds(p) :: e.id in s.pending ==> s.pending[e.id] == p.at)
      && (forall e | e in p.queued + p.done :: Readable(e))
      && (p.ClaimFetched? && p.todo != [] ==> Readable(p.todo[0]))
  }

  ghost predicate AllOwnClaims(s: State) {
    forall w | 0 <= w < |s.procs| :: OwnClaims(s, s.procs[w])
  }

  /** A process that claims nothing keeps its claims, and nobody's entries are handed out again. */
  lemma ClaimsFrame(s: State, s': State, w: nat)
    requires AllOwnClaims(s) && w < |s.procs| == |s'.procs| && s'.procs == s.procs[w := s'.procs[w]]
    requires s'.pending.Keys <= s.pending.Keys && forall id | id in s'.pending :: s'.pending[id] == s.pending[id]
    requires OwnClaims(s, s'.procs[w])
    ensures AllOwnClaims(s')
  {
    hide Holds, Sweeps;
    forall v | 0 <= v < |s'.procs| ensures OwnClaims(s', s'.procs[v]) {
      assert OwnClaims(s, s.procs[v]);
    }
  }

  lemma NoClaims(s: State, p: Proc)
    requires !Sweeps(p)
    ensures OwnClaims(s, p)
  {
  }

  lemma OtherClaims(c: Config, s: State, w: nat, a: Action)
    requires AllOwnClaims(s) && w < |s.procs|
    requires a.Ack? || a.AckDelete? || a.AckFails? || a.Nack? || a.NackPush? || a.NackAck? || a.NackFails?
             || a.SweepDelete? || a.SweepAck? || a.Stop?
    ensures AllOwnClaims(ActionStep(c, s, w, a))
  {
    hide AllOwnClaims, OwnClaims, GoneBody, GoneBodies, Present, XDel, BodyOf, ClaimStep, SweepVisitStep,
         SweepPushStep, SweepAddStep, MoveReadStep, MoveAddStep, MoveRemoveStep, RedriveReadStep, RedriveAddStep,
         RedriveTurnStep, RedriveRemoveStep, Owes;
    var s' := ActionStep(c, s, w, a);
    if s' != s {
      NoClaims(s, s'.procs[w]);
      ClaimsFrame(s, s', w);
    }
  }

  lemma MoverClaims(c: Config, s: State, w: nat, a: Action)
    requires AllOwnClaims(s) && w < |s.procs|
    requires a.MoveRead? || a.MoveAdd? || a.MoveRemove? || a.RedriveRead? || a.RedriveAdd? || a.RedriveTurn?
             || a.RedriveRemove?
    ensures AllOwnClaims(ActionStep(c, s, w, a))
  {
    hide AllOwnClaims, OwnClaims, Decode, PayloadOf, NoDup, Missed, RemoveEach, RemoveFirst, FirstOf, StopStep,
         ClaimStep, SweepVisitStep, SweepPushStep, SweepAddStep, SweepAckStep, SweepDeleteStep, AckStep,
         AckDeleteStep, AckFailsStep, NackStep, NackPushStep, NackAckStep, NackFailsStep;
    var s' := ActionStep(c, s, w, a);
    if s' != s {
      NoClaims(s, s'.procs[w]);
      ClaimsFrame(s, s', w);
    }
  }

  lemma VisitClaims(c: Config, s: State, w: nat)
    requires AllOwnClaims(s) && w < |s.procs|
    ensures AllOwnClaims(SweepVisitStep(c, s, w))
  {
    hide BodyOf, AtLimit, AllOwnClaims, OwnClaims, Owes;
    var s' := SweepVisitStep(c, s, w);
    if s' != s {
      KeptByVisit(c, s, w);
      ClaimsFrame(s, s', w);
    }
  }

  lemma KeptByVisit(c: Config, s: State, w: nat)
    requires AllOwnClaims(s) && w < |s.procs|
    ensures OwnClaims(s, SweepVisitStep(c, s, w).procs[w])
  {
    hide BodyOf, AtLimit, Owes;
    assert OwnClaims(s, s.procs[w]);
  }

  lemma CopyClaims(s: State, w: nat)
    requires AllOwnClaims(s) && w < |s.procs|
    ensures AllOwnClaims(SweepPushStep(s, w)) && AllOwnClaims(SweepAddStep(s, w))
  {
    assert OwnClaims(s, s.procs[w]);
    assert OwnClaims(s, SweepPushStep(s, w).procs[w]);
    assert OwnClaims(s, SweepAddStep(s, w).procs[w]);
    hide AllOwnClaims, OwnClaims;
    ClaimsFrame(s, SweepPushStep(s, w), w);
    ClaimsFrame(s, SweepAddStep(s, w), w);
  }

  lemma ClaimClaims(c: Config, s: State, w: nat, batch: seq<Entry>, gone: set<nat>)
    requires AllOwnClaims(s) && Lease(c, s) && Timely(c, s) && w < |s.procs|
    ensures AllOwnClaims(ClaimStep(c, s, w, batch, gone))
  {
    hide Lease, Timely, Present;
    if s.procs[w] == Idle && Claimable(c, s, batch, gone) {
      var s' := ClaimStep(c, s, w, batch, gone);
      forall v | 0 <= v < |s'.procs| ensures OwnClaims(s', s'.procs[v]) {
        if v == w {
          ClaimedNow(s, batch, gone);
        } else {
          assert OwnClaims(s, s.procs[v]);
          if Sweeps(s.procs[v]) { UntouchedByClaim(c, s, batch, gone, v); }
        }
      }
    }
  }

  lemma ClaimedNow(s: State, batch: seq<Entry>, gone: set<nat>)
    ensures var p := HandOut(s.pending, batch, s.clock) - gone;
            forall e | e in batch :: e.id in p ==> p[e.id] == s.clock
  {
    forall e | e in batch ensures e.id in IdSet(batch) {
      var i :| 0 <= i < |batch| && batch[i] == e;
    }
  }

  /** What another sweep holds in time is not claimed again. */
  lemma UntouchedByClaim(c: Config, s: State, batch: seq<Entry>, gone: set<nat>, v: nat)
    requires Lease(c, s) && Timely(c, s) && Claimable(c, s, batch, gone) && v < |s.procs| && Sweeps(s.procs[v])
    ensures forall e | e in Holds(s.procs[v]) :: e.id !in IdSet(batch)
  {
    hide Lease, Timely;
    forall e, i | e in Holds(s.procs[v]) && 0 <= i < |batch| ensures e.id != batch[i].id {
      ClaimIsNew(c, s, batch[i]);
      HeldMember(s.procs[v], e);
    }
  }

  lemma HeldMember(p: Proc, e: Entry)
    requires e in Holds(p)
    ensures e.id in Held(p)
  {
    IdBagMember(p.todo, e.id);
    IdBagMember(p.queued, e.id);
    IdBagMember(p.done, e.id);
  }

  /** Entries read now are held by no sweep. */
  lemma ReadClaims(c: Config, s: State, max: nat)
    requires AllOwnClaims(s) && Lease(c, s) && C.Inv(s)
    ensures AllOwnClaims(ReadStep(s, max))
  {
    hide Unread, Readable, C.ProcsOk;
    var es := Unread(s.stream, s.lastRead, max);
    C.UnreadShape(s.stream, s.lastRead, max);
    if es != [] {
      var s' := ReadStep(s, max);
      forall v | 0 <= v < |s'.procs| ensures OwnClaims(s', s'.procs[v]) {
        if v < |s.procs| {
          assert OwnClaims(s, s.procs[v]) && ProcLease(c, s, s.procs[v]);
          forall e, i | e in Holds(s.procs[v]) && 0 <= i < |es| ensures e.id != es[i].id {
            assert es[i] in es;
          }
        }
      }
    }
  }

  lemma ArrivalClaims(s: State, s': State)
    requires AllOwnClaims(s) && (s'.procs == s.procs || s'.procs == s.procs + [Idle]) && s'.pending == s.pending
    ensures AllOwnClaims(s')
  {
    forall v | 0 <= v < |s'.procs| ensures OwnClaims(s', s'.procs[v]) {
      assert v < |s.procs| ==> OwnClaims(s, s.procs[v]);
    }
  }

  lemma ActionClaims(c: Config, s: State, w: nat, a: Action)
    requires AllOwnClaims(s) && Lease(c, s) && Timely(c, s) && w < |s.procs|
    ensures AllOwnClaims(ActionStep(c, s, w, a))
  {
    hide StopStep, AckStep, AckDeleteStep, AckFailsStep, NackStep, NackPushStep, NackAckStep, NackFailsStep,
         ClaimStep, SweepVisitStep, SweepPushStep, SweepAddStep, SweepAckStep, SweepDeleteStep, MoveReadStep,
         MoveAddStep, MoveRemoveStep, RedriveReadStep, RedriveAddStep, RedriveTurnStep, RedriveRemoveStep, Lease,
         AllOwnClaims, Timely;
    match a
    case Claim(batch, gone) => ClaimClaims(c, s, w, batch, gone);
    case SweepVisit => VisitClaims(c, s, w);
    case SweepPush => CopyClaims(s, w);
    case SweepAdd => CopyClaims(s, w);
    case MoveRead(_) => MoverClaims(c, s, w, a);
    case MoveAdd => MoverClaims(c, s, w, a);
    case MoveRemove => MoverClaims(c, s, w, a);
    case RedriveRead => MoverClaims(c, s, w, a);
    case RedriveAdd => MoverClaims(c, s, w, a);
    case RedriveTurn => MoverClaims(c, s, w, a);
    case RedriveRemove => MoverClaims(c, s, w, a);
    case _ => OtherClaims(c, s, w, a);
  }

  lemma StepClaims(c: Config, s: State, e: Event)
    requires AllOwnClaims(s) && Lease(c, s) && C.Inv(s) && Timely(c, s)
    ensures AllOwnClaims(Step(c, s, e))
  {
    hide Lease, C.Inv, Timely, ReadStep, ActionStep, AllOwnClaims;
    match e
    case Read(max) => ReadClaims(c, s, max);
    case By(w, a) => if w < |s.procs| { ActionClaims(c, s, w, a); }
    case _ => ArrivalClaims(s, Step(c, s, e));
  }

  lemma {:induction false} RunClaims(c: Config, es: seq<Event>)
    requires TimelyRun(c, es)
    ensures AllOwnClaims(Run(c, es))
  {
    hide Step, Lease, C.Inv, Timely, Orderly;
    if es != [] {
      RunClaims(c, es[..|es| - 1]);
      C.RunInv(c, es[..|es| - 1]);
      RunLease(c, es[..|es| - 1]);
      StepClaims(c, Run(c, es[..|es| - 1]), es[|es| - 1]);
    }
  }

  // ----- a sweep going on by itself -----

  lemma RunThen(c: Config, es: seq<Event>, e: Event) returns (more: seq<Event>)
    ensures more == es + [e] && Run(c, more) == Step(c, Run(c, es), e)
  {
    more := es + [e];
    assert more[..|more| - 1] == es;
  }

  /** Nothing in what is left of a sweep ends it early: counts are readable, and bodies to dead-letter are there. */
  ghost predicate GoesThrough(c: Config, stream: seq<Entry>, p: Proc) {
    && Sweeps(p) && (p.ClaimFetched? ==> p.todo != [])
    && forall e | e in p.todo :: Readable(e) && (AtLimit(c.limit, e.count + 1) ==> BodyOf(stream, e.id).Some?)
  }

  /** What a sweep has yet to copy. */
  function Ahead(p: Proc): multiset<nat> {
    if Sweeps(p) then IdBag(p.todo) + IdBag(p.queued) else multiset{}
  }

  function Left(p: Proc): nat {
    if !Sweeps(p) then 0
    else if p.ClaimFetched? && p.todo != [] then 3 * |p.todo| + |p.queued| - 1 else 3 * |p.todo| + |p.queued|
  }

  lemma {:induction false} BodyStays(stream: seq<Entry>, e: Entry, id: nat)
    requires BodyOf(stream, id).Some?
    ensures BodyOf(stream + [e], id) == BodyOf(stream, id)
  {
    if stream[0].id != id {
      assert (stream + [e])[1..] == stream[1..] + [e];
      BodyStays(stream[1..], e, id);
    }
  }

  lemma IdBagParts(es: seq<Entry>)
    requires es != []
    ensures IdBag(es) == multiset{es[0].id} + IdBag(es[1..])
  {
  }

  lemma MovedMore(moved: seq<Move>, m: Move, id: nat)
    ensures CopiesOf(moved + [m], id) == CopiesOf(moved, id) + if m.id == id then 1 else 0
  {
    assert (moved + [m])[..|moved|] == moved;
  }

  /** What one command of a sweep does to the copies of entry `id` and to what is ahead. */
  ghost predicate Forward(c: Config, s: State, s': State, w: nat, id: nat)
    requires w < |s.procs|
  {
    && |s'.procs| == |s.procs| && s'.procs == s.procs[w := s'.procs[w]] && s'.pending == s.pending
    && s'.clock == s.clock && (s'.stream == s.stream || exists e :: s'.stream == s.stream + [e])
    && GoesThrough(c, s'.stream, s'.procs[w]) && Left(s'.procs[w]) < Left(s.procs[w])
    && CopiesOf(s'.history.moved, id) + Ahead(s'.procs[w])[id] == CopiesOf(s.history.moved, id) + Ahead(s.procs[w])[id]
  }

  /** The visit of one entry: it is queued, or its body is fetched. */
  lemma VisitIs(c: Config, s: State, w: nat)
    requires w < |s.procs| && GoesThrough(c, s.stream, s.procs[w]) && s.procs[w].Claimed? && s.procs[w].todo != []
    ensures var (p, s') := (s.procs[w], Step(c, s, By(w, SweepVisit)));
            || s' == Put(s, w, Claimed(p.todo[1..], p.queued + [p.todo[0]], p.done, p.at))
            || exists body :: s' == Put(s, w, ClaimFetched(p.todo, p.queued, p.done, p.at, body))
  {
    hide Owes, AtLimit, BodyOf;
    var p := s.procs[w];
    assert p.todo[0] in p.todo;
    if AtLimit(c.limit, p.todo[0].count + 1) {
      var body := BodyOf(s.stream, p.todo[0].id).value;
      assert Step(c, s, By(w, SweepVisit)) == Put(s, w, ClaimFetched(p.todo, p.queued, p.done, p.at, body));
    }
  }

  lemma QueuesForward(c: Config, s: State, w: nat, id: nat)
    requires w < |s.procs| && GoesThrough(c, s.stream, s.procs[w]) && s.procs[w].Claimed? && s.procs[w].todo != []
    ensures Forward(c, s, Step(c, s, By(w, SweepVisit)), w, id)
  {
    VisitIs(c, s, w);
    Queued(s.procs[w]);
    hide AtLimit, BodyOf, CopiesOf, Ahead, Step;
  }

  lemma Queued(p: Proc)
    requires p.Claimed? && p.todo != []
    ensures Ahead(Claimed(p.todo[1..], p.queued + [p.todo[0]], p.done, p.at)) == Ahead(p)
    ensures forall body :: Ahead(ClaimFetched(p.todo, p.queued, p.done, p.at, body)) == Ahead(p)
  {
    hide IdBag;
    IdBagParts(p.todo);
    IdBagSnoc(p.queued, p.todo[0]);
  }

  lemma PushForward(c: Config, s: State, w: nat, id: nat)
    requires w < |s.procs| && GoesThrough(c, s.stream, s.procs[w]) && s.procs[w].ClaimFetched?
    ensures Forward(c, s, Step(c, s, By(w, SweepPush)), w, id)
  {
    hide AtLimit, BodyOf, CopiesOf, IdBag, Owes;
    var p := s.procs[w];
    IdBagParts(p.todo);
    MovedMore(s.history.moved, Move(p.todo[0].id, s.clock), id);
  }

  lemma AddForward(c: Config, s: State, w: nat, id: nat)
    requires w < |s.procs| && GoesThrough(c, s.stream, s.procs[w])
    requires s.procs[w].Claimed? && s.procs[w].todo == [] && s.procs[w].queued != []
    ensures Forward(c, s, Step(c, s, By(w, SweepAdd)), w, id)
  {
    hide AtLimit, BodyOf, CopiesOf, IdBag, Owes;
    var p := s.procs[w];
    IdBagParts(p.queued);
    MovedMore(s.history.moved, Move(p.queued[0].id, s.clock), id);
    assert Step(c, s, By(w, SweepAdd)).stream
        == s.stream + [Entry(s.lastId + 1, p.queued[0].payload, p.queued[0].count + 1)];
  }

  /** A sweep that nothing ends early can copy all it has ahead, whatever other processes hold. */
  lemma {:induction false} CopiesTheRest(c: Config, es: seq<Event>, w: nat, id: nat) returns (more: seq<Event>)
    requires w < |Run(c, es).procs| && GoesThrough(c, Run(c, es).stream, Run(c, es).procs[w])
    ensures var (s, s') := (Run(c, es), Run(c, more));
            && es <= more && |s'.procs| == |s.procs| && s'.procs == s.procs[w := s'.procs[w]]
            && (forall i | BodyOf(s.stream, i).Some? :: BodyOf(s'.stream, i) == BodyOf(s.stream, i))
            && CopiesOf(s'.history.moved, id) == CopiesOf(s.history.moved, id) + Ahead(s.procs[w])[id]
    decreases Left(Run(c, es).procs[w])
  {
    hide Run, Step, GoesThrough, CopiesOf, BodyOf;
    var s := Run(c, es);
    var p := s.procs[w];
    SweepsOn(c, s.stream, p);
    if p.Claimed? && p.todo == [] && p.queued == [] {
      more := es;
    } else {
      var a := if p.ClaimFetched? then SweepPush else if p.todo != [] then SweepVisit else SweepAdd;
      if p.ClaimFetched? { PushForward(c, s, w, id); }
      else if p.todo != [] { QueuesForward(c, s, w, id); }
      else { AddForward(c, s, w, id); }
      var next := RunThen(c, es, By(w, a));
      more := CopiesTheRest(c, next, w, id);
      forall i | BodyOf(s.stream, i).Some? ensures BodyOf(Run(c, next).stream, i) == BodyOf(s.stream, i) {
        if e :| Run(c, next).stream == s.stream + [e] { BodyStays(s.stream, e, i); }
      }
    }
  }

  lemma SweepsOn(c: Config, stream: seq<Entry>, p: Proc)
    requires GoesThrough(c, stream, p)
    ensures Sweeps(p) && (p.ClaimFetched? ==> p.todo != [])
  {
  }

  // ----- late sweeps -----

  /** An entry that has been idle for the deadline can be claimed, whoever else still holds it. */
  lemma ClaimsIt(c: Config, s: State, v: nat, e: Entry)
    requires v < |s.procs| && s.procs[v] == Idle && Idleness(c, s, e)
    ensures var s' := Step(c, s, By(v, Claim([e], {})));
            && s'.procs == s.procs[v := Claimed([e], [], [], s.clock)]
            && s'.stream == s.stream && s'.history == s.history && s'.clock == s.clock
  {
    hide HandOut;
  }

  /** From there the claimant can copy the entry, if it can be read at all. */
  lemma CopiesIt(c: Config, es: seq<Event>, v: nat, e: Entry) returns (more: seq<Event>)
    requires v < |Run(c, es).procs| && Run(c, es).procs[v].Claimed?
    requires Run(c, es).procs[v].todo == [e] && Run(c, es).procs[v].queued == []
    requires Readable(e) && BodyOf(Run(c, es).stream, e.id).Some?
    ensures es <= more && CopiesOf(Run(c, more).history.moved, e.id) == CopiesOf(Run(c, es).history.moved, e.id) + 1
  {
    hide Run, BodyOf, CopiesOf, AtLimit;
    more := CopiesTheRest(c, es, v, e.id);
    assert IdBag([e])[e.id] == 1 by { assert [e][1..] == []; }
  }

  /** What is known of an entry that sweep `w` of a timely run holds. */
  lemma HeldInTime(c: Config, es: seq<Event>, w: nat, e: Entry)
    requires TimelyRun(c, es) && w < |Run(c, es).procs| && e in Holds(Run(c, es).procs[w])
    requires e.id in Run(c, es).pending && e in Run(c, es).stream
    ensures var s := Run(c, es);
            && s.pending[e.id] == s.procs[w].at <= s.clock && BodyOf(s.stream, e.id).Some?
            && CopiesOf(s.history.moved, e.id) + Ahead(s.procs[w])[e.id] == 1
            && (e in s.procs[w].queued || e in s.procs[w].done ==> Readable(e))
            && (e in s.procs[w].done ==> CopiesOf(s.history.moved, e.id) == 1)
            && (s.procs[w].ClaimFetched? ==> s.procs[w].todo != [])
  {
    RunClaims(c, es);
    RunExclusive(c, es);
    C.RunInv(c, es);
    RunLease(c, es);
    var s := Run(c, es);
    hide Run, TimelyRun, BodyOf, CopiesOf, Ahead, Readable, Lease, Exclusive, C.Inv, AllOwnClaims, Holds;
    OwnClaim(s, w, e);
    OneCopyInAll(s, w, e);
    BodyIsThere(s, w, e);
    LeaseInTime(c, s, w);
  }

  lemma OwnClaim(s: State, w: nat, e: Entry)
    requires AllOwnClaims(s) && w < |s.procs| && e in Holds(s.procs[w]) && e.id in s.pending
    ensures Sweeps(s.procs[w]) && s.pending[e.id] == s.procs[w].at
    ensures e in s.procs[w].queued || e in s.procs[w].done ==> Readable(e)
  {
    hide Readable;
    assert OwnClaims(s, s.procs[w]);
  }

  /** Of what a sweep holds there is one copy in all: made, or ahead. */
  lemma OneCopyInAll(s: State, w: nat, e: Entry)
    requires Exclusive(s) && w < |s.procs| && e in Holds(s.procs[w]) && Sweeps(s.procs[w])
    ensures CopiesOf(s.history.moved, e.id) + Ahead(s.procs[w])[e.id] == 1
    ensures e in s.procs[w].done ==> CopiesOf(s.history.moved, e.id) == 1
  {
    hide CopiesOf, IdBag;
    HeldMember(s.procs[w], e);
    assert Owns(s, w);
    IdBagMember(s.procs[w].done, e.id);
  }

  lemma BodyIsThere(s: State, w: nat, e: Entry)
    requires C.Inv(s) && w < |s.procs| && e in s.stream
    ensures BodyOf(s.stream, e.id).Some? && (s.procs[w].ClaimFetched? ==> s.procs[w].todo != [])
  {
    hide BodyOf, C.AllKnown;
    assert C.ProcOk(s, s.procs[w]);
    BodyFound(s.stream, e);
  }

  lemma LeaseInTime(c: Config, s: State, w: nat)
    requires Lease(c, s) && w < |s.procs| && Sweeps(s.procs[w])
    ensures s.procs[w].at <= s.clock
  {
    assert ProcLease(c, s, s.procs[w]);
  }

  /**
   * Timeliness is needed: when in a timely run time takes sweep `w` to the deadline of its claim, any idle process can
   * claim what `w` still holds and has not acknowledged. And then, if nothing else ends sweep `w`, both copy it.
   */
  lemma {:induction false} LateSweepsCopyTwice(c: Config, es: seq<Event>, w: nat, e: Entry, ms: nat, v: nat)
      returns (claimed: seq<Event>, copied: seq<Event>)
    requires TimelyRun(c, es) && w < |Run(c, es).procs| && e in Holds(Run(c, es).procs[w])
    requires e.id in Run(c, es).pending && e in Run(c, es).stream
    requires Run(c, es).clock + ms >= Run(c, es).procs[w].at + c.ackDeadline
    requires v < |Run(c, es).procs| && Run(c, es).procs[v] == Idle
    ensures claimed == es + [Tick(ms), By(v, Claim([e], {}))] && v != w
    ensures |Run(c, claimed).procs| == |Run(c, es).procs|
    ensures e in Holds(Run(c, claimed).procs[w]) && e in Holds(Run(c, claimed).procs[v])
    ensures claimed <= copied
    ensures GoesThrough(c, Run(c, es).stream, Run(c, es).procs[w]) ==> CopiesOf(Run(c, copied).history.moved, e.id) == 2
  {
    HeldInTime(c, es, w, e);
    var s := Run(c, es);
    assert v != w;
    hide Run, TimelyRun, BodyOf, CopiesOf, Readable, AtLimit;
    var waited := RunThen(c, es, Tick(ms));
    ClaimsIt(c, Run(c, waited), v, e);
    claimed := RunThen(c, waited, By(v, Claim([e], {})));
    assert es + [Tick(ms)] + [By(v, Claim([e], {}))] == es + [Tick(ms), By(v, Claim([e], {}))];
    copied := claimed;
    if GoesThrough(c, s.stream, s.procs[w]) {
      HeldReadable(c, s, w, e);
      hide GoesThrough, Ahead, Holds, Step, Idleness;
      copied := BothCopy(c, claimed, w, v, e);
    }
  }

  lemma {:induction false} BothCopy(c: Config, es: seq<Event>, w: nat, v: nat, e: Entry) returns (copied: seq<Event>)
    requires w < |Run(c, es).procs| && GoesThrough(c, Run(c, es).stream, Run(c, es).procs[w])
    requires v < |Run(c, es).procs| && v != w && Run(c, es).procs[v].Claimed?
    requires Run(c, es).procs[v].todo == [e] && Run(c, es).procs[v].queued == []
    requires Readable(e) && BodyOf(Run(c, es).stream, e.id).Some?
    requires CopiesOf(Run(c, es).history.moved, e.id) + Ahead(Run(c, es).procs[w])[e.id] == 1
    ensures es <= copied && CopiesOf(Run(c, copied).history.moved, e.id) == 2
  {
    hide Run, BodyOf, CopiesOf, Readable, GoesThrough, Ahead;
    copied := CopiesTheRest(c, es, w, e.id);
    copied := CopiesIt(c, copied, v, e);
  }

  lemma HeldReadable(c: Config, s: State, w: nat, e: Entry)
    requires w < |s.procs| && GoesThrough(c, s.stream, s.procs[w]) && e in Holds(s.procs[w])
    requires e in s.procs[w].queued || e in s.procs[w].done ==> Readable(e)
    ensures Readable(e)
  {
  }

  // ----- what ends a sweep -----

  lemma SettlerActs(c: Config, s: State, u: nat, a: Action)
    requires u < |s.procs|
    requires a.Ack? || a.AckDelete? || a.AckFails? || a.Nack? || a.NackPush? || a.NackAck? || a.NackFails?
             || a.SweepDelete?
    ensures var s' := ActionStep(c, s, u, a);
            |s'.procs| == |s.procs| && s'.procs == s.procs[u := s'.procs[u]] && (Sweeps(s.procs[u]) ==> s' == s)
  {
    hide GoneBody, Present, XDel, BodyOf, StopStep, ClaimStep, SweepVisitStep, SweepPushStep, SweepAddStep,
         SweepAckStep, MoveReadStep, MoveAddStep, MoveRemoveStep, RedriveReadStep, RedriveAddStep, RedriveTurnStep,
         RedriveRemoveStep;
  }

  lemma MoverActs(c: Config, s: State, u: nat, a: Action)
    requires u < |s.procs|
    requires a.MoveRead? || a.MoveAdd? || a.MoveRemove? || a.RedriveRead? || a.RedriveAdd? || a.RedriveTurn?
             || a.RedriveRemove?
    ensures var s' := ActionStep(c, s, u, a);
            |s'.procs| == |s.procs| && s'.procs == s.procs[u := s'.procs[u]] && (Sweeps(s.procs[u]) ==> s' == s)
  {
    hide Decode, PayloadOf, NoDup, Missed, RemoveEach, RemoveFirst, FirstOf, StopStep, ClaimStep, SweepVisitStep,
         SweepPushStep, SweepAddStep, SweepAckStep, SweepDeleteStep, AckStep, AckDeleteStep, AckFailsStep, NackStep,
         NackPushStep, NackAckStep, NackFailsStep;
  }

  lemma SweepActs(c: Config, s: State, u: nat, a: Action)
    requires u < |s.procs|
    requires a.Stop? || a.Claim? || a.SweepVisit? || a.SweepPush? || a.SweepAdd? || a.SweepAck?
    ensures var s' := ActionStep(c, s, u, a);
            && |s'.procs| == |s.procs| && s'.procs == s.procs[u := s'.procs[u]]
            && (Sweeps(s.procs[u]) ==> Sweeps(s'.procs[u]) || s'.procs[u].SweepDeleting? || s' == StopStep(s, u))
  {
    hide GoneBodies, BodyOf, AtLimit, Claimable, HandOut, Owes, AckStep, AckDeleteStep, AckFailsStep, NackStep,
         NackPushStep, NackAckStep, NackFailsStep, MoveReadStep, MoveAddStep, MoveRemoveStep, RedriveReadStep,
         RedriveAddStep, RedriveTurnStep, RedriveRemoveStep, SweepDeleteStep;
  }

  lemma ActsAlone(c: Config, s: State, u: nat, a: Action)
    requires u < |s.procs|
    ensures var s' := ActionStep(c, s, u, a);
            && |s'.procs| == |s.procs| && s'.procs == s.procs[u := s'.procs[u]]
            && (Sweeps(s.procs[u]) ==> Sweeps(s'.procs[u]) || s'.procs[u].SweepDeleting? || s' == StopStep(s, u))
  {
    hide ActionStep, StopStep;
    match a
    case Stop => SweepActs(c, s, u, a);
    case Claim(_, _) => SweepActs(c, s, u, a);
    case SweepVisit => SweepActs(c, s, u, a);
    case SweepPush => SweepActs(c, s, u, a);
    case SweepAdd => SweepActs(c, s, u, a);
    case SweepAck => SweepActs(c, s, u, a);
    case MoveRead(_) => MoverActs(c, s, u, a);
    case MoveAdd => MoverActs(c, s, u, a);
    case MoveRemove => MoverActs(c, s, u, a);
    case RedriveRead => MoverActs(c, s, u, a);
    case RedriveAdd => MoverActs(c, s, u, a);
    case RedriveTurn => MoverActs(c, s, u, a);
    case RedriveRemove => MoverActs(c, s, u, a);
    case _ => SettlerActs(c, s, u, a);
  }

  /** The sweep of process `w` does not outlive event `f`, and has not acknowledged anything by it. */
  ghost predicate EndsEarly(c: Config, s: State, f: Event, w: nat)
    requires w < |s.procs|
  {
    Sweeps(s.procs[w]) && w < |Step(c, s, f).procs|
    && !Sweeps(Step(c, s, f).procs[w]) && !Step(c, s, f).procs[w].SweepDeleting?
  }

  /** An early end copies nothing more, and leaves the process idle. */
  lemma EarlyEnd(c: Config, s: State, f: Event, w: nat)
    requires w < |s.procs| && EndsEarly(c, s, f, w)
    ensures Step(c, s, f) == StopStep(s, w)
  {
    hide ActionStep, StopStep, ReadStep;
    match f
    case By(u, a) => if u < |s.procs| { ActsAlone(c, s, u, a); }
    case Read(max) => ReadKeeps(s, max);
    case _ =>
  }

  lemma ReadKeeps(s: State, max: nat)
    ensures s.procs <= ReadStep(s, max).procs
  {
    hide Unread, HandOut;
  }

  /**
   * And so is acknowledging what was copied: when an event ends sweep `w` of a timely run after it has copied entry
   * `e`, which is still pending, any process that is idle then, `w` for instance, can claim and copy it again as soon
   * as a deadline has passed since the claim of `w`.
   */
  lemma {:induction false} StoppedSweepCopiesAgain(
      c: Config, es: seq<Event>, w: nat, e: Entry, f: Event, ms: nat, v: nat) returns (copied: seq<Event>)
    requires TimelyRun(c, es) && w < |Run(c, es).procs| && EndsEarly(c, Run(c, es), f, w)
    requires e in Run(c, es).procs[w].done && e.id in Run(c, es).pending && e in Run(c, es).stream
    requires v < |Run(c, es).procs| && (v == w || Run(c, es).procs[v] == Idle)
    requires Run(c, es).clock + ms >= Run(c, es).procs[w].at + c.ackDeadline
    ensures es + [f, Tick(ms), By(v, Claim([e], {}))] <= copied && CopiesOf(Run(c, copied).history.moved, e.id) == 2
  {
    HeldInTime(c, es, w, e);
    EarlyEnd(c, Run(c, es), f, w);
    hide Run, Step, TimelyRun, BodyOf, CopiesOf, Readable, AtLimit, Owes;
    var stopped := RunThen(c, es, f);
    Ticks(c, Run(c, stopped), ms);
    var waited := RunThen(c, stopped, Tick(ms));
    ClaimsIt(c, Run(c, waited), v, e);
    var claimed := RunThen(c, waited, By(v, Claim([e], {})));
    copied := CopiesIt(c, claimed, v, e);
    assert es + [f] + [Tick(ms)] + [By(v, Claim([e], {}))] == es + [f, Tick(ms), By(v, Claim([e], {}))];
  }

  // ----- there are such runs -----

  lemma TimelyThen(c: Config, es: seq<Event>, f: Event) returns (more: seq<Event>)
    requires TimelyRun(c, es) && Timely(c, Run(c, es)) && Orderly(Run(c, es), Step(c, Run(c, es), f))
    ensures more == es + [f] && Run(c, more) == Step(c, Run(c, es), f) && TimelyRun(c, more)
  {
    more := es + [f];
    assert more[..|more| - 1] == es;
    hide Run, Step, Timely, Orderly;
  }

  /** Where nobody sweeps every event is timely and orderly. */
  lemma NobodySweeps(c: Config, s: State, s': State)
    requires |s.procs| <= |s'.procs| && forall w | 0 <= w < |s.procs| :: !Sweeps(s.procs[w])
    ensures Timely(c, s) && Orderly(s, s')
  {
  }

  lemma NothingRun(c: Config)
    ensures Run(c, []) == INIT && TimelyRun(c, [])
  {
  }

  lemma Spawns(c: Config, s: State)
    ensures Step(c, s, Spawn) == s.(procs := s.procs + [Idle])
  {
  }

  lemma FirstSend(c: Config, s: State, payload: Bytes)
    requires s.stream == [] && s.lastId == 0
    ensures var s' := Step(c, s, Send(payload));
            && s'.stream == [Entry(1, payload, 0)] && s'.procs == s.procs && s'.pending == s.pending
            && s'.lastRead == s.lastRead && s'.clock == s.clock
  {
    assert [] + [Entry(1, payload, 0)] == [Entry(1, payload, 0)];
  }

  lemma FirstRead(c: Config, s: State, e: Entry)
    requires s.stream == [e] && e.id == 1 && s.lastRead == 0 && s.pending == map[] && Readable(e)
    ensures var s' := Step(c, s, Read(1));
            && s'.stream == [e] && s'.procs == s.procs + [Delivered(e, false)] && s'.pending == map[1 := s.clock]
            && s'.clock == s.clock
  {
    assert Unread([e], 0, 1) == [e] && IdSet([e]) == {1} by { assert [e][0].id in IdSet([e]); }
  }

  /** Two idle processes, and one entry that was sent and read at time 0. */
  lemma OneRead(c: Config, payload: Bytes) returns (es: seq<Event>)
    ensures var (s, e) := (Run(c, es), Entry(1, payload, 0));
            && TimelyRun(c, es) && s.stream == [e] && s.pending == map[1 := 0] && s.clock == 0
            && s.procs == [Idle, Idle, Delivered(e, false)]
  {
    hide Run, TimelyRun, Step, Timely, Orderly;
    NothingRun(c);
    Spawns(c, INIT);
    NobodySweeps(c, INIT, Step(c, INIT, Spawn));
    es := TimelyThen(c, [], Spawn);
    Spawns(c, Run(c, es));
    NobodySweeps(c, Run(c, es), Step(c, Run(c, es), Spawn));
    es := TimelyThen(c, es, Spawn);
    assert Run(c, es) == INIT.(procs := [Idle, Idle]);
    FirstSend(c, Run(c, es), payload);
    NobodySweeps(c, Run(c, es), Step(c, Run(c, es), Send(payload)));
    es := TimelyThen(c, es, Send(payload));
    FirstRead(c, Run(c, es), Entry(1, payload, 0));
    NobodySweeps(c, Run(c, es), Step(c, Run(c, es), Read(1)));
    es := TimelyThen(c, es, Read(1));
  }

  lemma Ticks(c: Config, s: State, ms: nat)
    ensures Step(c, s, Tick(ms)) == s.(clock := s.clock + ms)
  {
  }

  /** For every configuration a timely run can lead to a sweep that holds a message, with a second process idle. */
  lemma {:induction false} TimelySweep(c: Config, payload: Bytes) returns (es: seq<Event>)
    ensures var (s, e) := (Run(c, es), Entry(1, payload, 0));
            && TimelyRun(c, es) && s.stream == [e] && e.id in s.pending && s.clock == c.ackDeadline
            && s.procs == [Claimed([e], [], [], c.ackDeadline), Idle, Delivered(e, false)]
            && GoesThrough(c, s.stream, s.procs[0])
  {
    hide Run, TimelyRun, Step, AtLimit, Timely, Orderly;
    var e := Entry(1, payload, 0);
    es := OneRead(c, payload);
    Ticks(c, Run(c, es), c.ackDeadline);
    NobodySweeps(c, Run(c, es), Step(c, Run(c, es), Tick(c.ackDeadline)));
    es := TimelyThen(c, es, Tick(c.ackDeadline));
    assert e in Run(c, es).stream;
    ClaimsIt(c, Run(c, es), 0, e);
    ClaimKeepsPending(c, Run(c, es), 0, e);
    NobodySweeps(c, Run(c, es), Step(c, Run(c, es), By(0, Claim([e], {}))));
    es := TimelyThen(c, es, By(0, Claim([e], {})));
    assert BodyOf([e], 1) == Some(payload);
  }

  /** And, unless the deadline is 0, to one that has copied it and not acknowledged it yet. */
  lemma {:induction false} TimelyCopy(c: Config, payload: Bytes) returns (es: seq<Event>)
    requires c.ackDeadline > 0
    ensures var (s, e) := (Run(c, es), Entry(1, payload, 0));
            && TimelyRun(c, es) && e in s.stream && e.id in s.pending && s.clock == c.ackDeadline
            && s.procs == [Claimed([], [], [e], c.ackDeadline), Idle, Delivered(e, false)]
            && EndsEarly(c, s, By(0, Stop), 0)
  {
    hide Run, TimelyRun, Step, AtLimit, Owes, Timely, Orderly;
    var (e, d) := (Entry(1, payload, 0), c.ackDeadline);
    es := TimelySweep(c, payload);
    assert BodyOf([e], 1) == Some(payload);
    VisitsOne(c, Run(c, es), e, d);
    OneSweeps(c, Run(c, es), Step(c, Run(c, es), By(0, SweepVisit)));
    es := TimelyThen(c, es, By(0, SweepVisit));
    var copy := if AtLimit(c.limit, 1) then SweepPush else SweepAdd;
    CopiesOne(c, Run(c, es), e, d);
    OneSweeps(c, Run(c, es), Step(c, Run(c, es), By(0, copy)));
    es := TimelyThen(c, es, By(0, copy));
    StopEnds(c, Run(c, es));
  }

  /** The only sweep is in time and has copied nothing yet. */
  lemma OneSweeps(c: Config, s: State, s': State)
    requires 0 < |s.procs| <= |s'.procs| && forall w | 0 < w < |s.procs| :: !Sweeps(s.procs[w])
    requires Sweeps(s.procs[0]) ==> s.clock < s.procs[0].at + c.ackDeadline && s.procs[0].done == []
    ensures Timely(c, s) && Orderly(s, s')
  {
  }

  lemma VisitsOne(c: Config, s: State, e: Entry, at: nat)
    requires 0 < |s.procs| && s.procs[0] == Claimed([e], [], [], at) && Readable(e) && BodyOf(s.stream, e.id).Some?
    ensures Step(c, s, By(0, SweepVisit))
         == Put(s, 0, if AtLimit(c.limit, e.count + 1) then ClaimFetched([e], [], [], at, BodyOf(s.stream, e.id).value)
                      else Claimed([], [e], [], at))
  {
    hide AtLimit, BodyOf;
    assert [e][1..] == [] && [] + [e] == [e];
  }

  lemma CopiesOne(c: Config, s: State, e: Entry, at: nat)
    requires 0 < |s.procs|
    requires if AtLimit(c.limit, 1) then s.procs[0].ClaimFetched? && s.procs[0].todo == [e] && s.procs[0].queued == []
                                         && s.procs[0].done == [] && s.procs[0].at == at
             else s.procs[0] == Claimed([], [e], [], at)
    ensures var s' := Step(c, s, By(0, if AtLimit(c.limit, 1) then SweepPush else SweepAdd));
            && s'.procs == s.procs[0 := Claimed([], [], [e], at)] && s.stream <= s'.stream
            && s'.pending == s.pending && s'.clock == s.clock
  {
    hide AtLimit;
    assert [e][1..] == [] && [] + [e] == [e];
  }

  lemma StopEnds(c: Config, s: State)
    requires 0 < |s.procs| && Sweeps(s.procs[0])
    ensures EndsEarly(c, s, By(0, Stop), 0)
  {
    hide Owes;
  }

  lemma ClaimKeepsPending(c: Config, s: State, v: nat, e: Entry)
    requires v < |s.procs| && s.procs[v] == Idle && Idleness(c, s, e)
    ensures e.id in Step(c, s, By(v, Claim([e], {}))).pending
  {
    assert [e][0].id in IdSet([e]);
  }
}

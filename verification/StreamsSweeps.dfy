/** Sweeps of the stream protocol that finish within the deadline of their claim never copy one entry twice. */
module StreamsSweeps {
  import opened Codec
  import opened RedisLists
  import opened StreamsProtocol
  import C = StreamsConservation
  import opened StreamsLease

  /** Every sweep under way is still within the deadline of its claim. */
  ghost predicate Timely(c: Config, s: State) {
    forall w | 0 <= w < |s.procs| && Sweeps(s.procs[w]) :: s.clock < s.procs[w].at + c.ackDeadline
  }

  /** No sweep that has copied something stops before it has acknowledged what it copied. */
  ghost predicate Orderly(s: State, s': State) {
    |s.procs| <= |s'.procs| &&
    forall w | 0 <= w < |s.procs| && Sweeps(s.procs[w]) && s.procs[w].done != [] ::
      Sweeps(s'.procs[w]) || s'.procs[w].SweepDeleting?
  }

  ghost predicate TimelyRun(c: Config, es: seq<Event>) {
    es == [] ||
    var before := Run(c, es[..|es| - 1]);
    && TimelyRun(c, es[..|es| - 1]) && Timely(c, before) && Orderly(before, Step(c, before, es[|es| - 1]))
  }

  // ----- counting -----

  function IdBag(es: seq<Entry>): multiset<nat> {
    if es == [] then multiset{} else multiset{es[0].id} + IdBag(es[1..])
  }

  function Held(p: Proc): multiset<nat> {
    if Sweeps(p) then IdBag(p.todo) + IdBag(p.queued) + IdBag(p.done) else multiset{}
  }

  function Done(p: Proc): multiset<nat> {
    if Sweeps(p) then IdBag(p.done) else multiset{}
  }

  /** How often sweeps have copied entry `id`. */
  function CopiesOf(moved: seq<Move>, id: nat): nat {
    if moved == [] then 0
    else CopiesOf(moved[..|moved| - 1], id) + if moved[|moved| - 1].id == id then 1 else 0
  }

  ghost predicate Owns(s: State, w: nat)
    requires w < |s.procs|
  {
    forall id | id in Held(s.procs[w]) ::
      Held(s.procs[w])[id] == 1 && CopiesOf(s.history.moved, id) == Done(s.procs[w])[id]
  }

  ghost predicate Apart(s: State) {
    forall v, w, id | 0 <= v < w < |s.procs| :: !(id in Held(s.procs[v]) && id in Held(s.procs[w]))
  }

  ghost predicate Unheld(s: State, id: nat) {
    forall w | 0 <= w < |s.procs| :: id !in Held(s.procs[w])
  }

  ghost predicate Exclusive(s: State) {
    && (forall w | 0 <= w < |s.procs| :: Owns(s, w)) && Apart(s)
    && (forall id | id in s.pending && Unheld(s, id) :: CopiesOf(s.history.moved, id) == 0)
    && (forall id :: CopiesOf(s.history.moved, id) <= 1)
  }

  lemma {:induction false} IdBagSnoc(es: seq<Entry>, e: Entry)
    ensures IdBag(es + [e]) == IdBag(es) + multiset{e.id}
  {
    if es == [] {
      assert es + [e] == [e] && [e][1..] == [];
    } else {
      assert (es + [e])[1..] == es[1..] + [e];
      IdBagSnoc(es[1..], e);
    }
  }

  lemma {:induction false} IdBagMember(es: seq<Entry>, id: nat)
    ensures id in IdBag(es) <==> exists e :: e in es && e.id == id
  {
    if es != [] {
      assert es == [es[0]] + es[1..];
      IdBagMember(es[1..], id);
    }
  }

  lemma {:induction false} IdBagDistinct(es: seq<Entry>, id: nat)
    requires NoDup(Ids(es))
    ensures IdBag(es)[id] <= 1
  {
    if es != [] {
      forall i | 0 <= i < |es[1..]| ensures Ids(es[1..])[i] == Ids(es)[i + 1] != es[0].id {
        assert Ids(es)[0] == es[0].id;
      }
      IdBagDistinct(es[1..], id);
      IdBagMember(es[1..], es[0].id);
      forall e | e in es[1..] ensures e.id != es[0].id {
        var i :| 0 <= i < |es[1..]| && es[1..][i] == e;
        assert Ids(es[1..])[i] == e.id;
      }
    }
  }

  lemma HeldEntry(p: Proc, id: nat)
    requires id in Held(p)
    ensures exists e :: e in Holds(p) && e.id == id
  {
    IdBagMember(p.todo, id);
    IdBagMember(p.queued, id);
    IdBagMember(p.done, id);
    if e :| e in p.todo && e.id == id { assert e in Holds(p); }
    else if e :| e in p.queued && e.id == id { assert e in Holds(p); }
    else if e :| e in p.done && e.id == id { assert e in Holds(p); }
  }

  lemma {:induction false} NoCopies(moved: seq<Move>, id: nat)
    requires forall i | 0 <= i < |moved| :: moved[i].id != id
    ensures CopiesOf(moved, id) == 0
  {
    if moved != [] { NoCopies(moved[..|moved| - 1], id); }
  }

  lemma IdBagCons(es: seq<Entry>)
    requires es != []
    ensures IdBag(es) == multiset{es[0].id} + IdBag(es[1..])
  {
  }

  /** Queueing or copying an entry moves it within what the sweep holds. */
  lemma HeldVisit(p: Proc, p': Proc)
    requires p.Claimed? && p.todo != []
    requires || p' == Claimed(p.todo[1..], p.queued + [p.todo[0]], p.done, p.at)
             || (p'.ClaimFetched? && p' == ClaimFetched(p.todo, p.queued, p.done, p.at, p'.body))
    ensures Held(p') == Held(p) && Done(p') == Done(p)
  {
    hide IdBag;
    IdBagCons(p.todo);
    IdBagSnoc(p.queued, p.todo[0]);
    forall id ensures Held(p')[id] == Held(p)[id] {}
  }

  lemma HeldDeadLetter(p: Proc)
    requires Sweeps(p) && p.todo != []
    ensures var p' := Claimed(p.todo[1..], p.queued, p.done + [p.todo[0]], p.at);
            Held(p') == Held(p) && Done(p') == Done(p) + multiset{p.todo[0].id} && Done(p') <= Held(p)
    ensures p.todo[0].id in Held(p)
  {
    hide IdBag;
    IdBagCons(p.todo);
    IdBagSnoc(p.done, p.todo[0]);
    forall id ensures Held(Claimed(p.todo[1..], p.queued, p.done + [p.todo[0]], p.at))[id] == Held(p)[id] {}
  }

  lemma HeldAdd(p: Proc)
    requires Sweeps(p) && p.todo == [] && p.queued != []
    ensures var p' := Claimed([], p.queued[1..], p.done + [p.queued[0]], p.at);
            Held(p') == Held(p) && Done(p') == Done(p) + multiset{p.queued[0].id} && Done(p') <= Held(p)
    ensures p.queued[0].id in Held(p)
  {
    hide IdBag;
    IdBagCons(p.queued);
    IdBagSnoc(p.done, p.queued[0]);
    forall id ensures Held(Claimed([], p.queued[1..], p.done + [p.queued[0]], p.at))[id] == Held(p)[id] {}
  }

  // ----- the steps -----

  /** A process keeps exactly what it held, or lets go of it without a copy or with its acknowledgement. */
  lemma HoldFrame(s: State, s': State, w: nat)
    requires Exclusive(s) && w < |s.procs| == |s'.procs| && s'.procs == s.procs[w := s'.procs[w]]
    requires s'.history.moved == s.history.moved && s'.pending.Keys <= s.pending.Keys
    requires || (Held(s'.procs[w]) == Held(s.procs[w]) && Done(s'.procs[w]) == Done(s.procs[w]))
             || (Held(s'.procs[w]) == multiset{} && forall id | id in s'.pending :: id !in Done(s.procs[w]))
    ensures Exclusive(s')
  {
    hide Held, Done, CopiesOf;
    forall v | 0 <= v < |s'.procs| ensures Owns(s', v) {
      assert Owns(s, v);
    }
    forall id | id in s'.pending && Unheld(s', id) ensures CopiesOf(s'.history.moved, id) == 0 {
      assert Owns(s, w);
      if id !in Held(s.procs[w]) {
        forall v | 0 <= v < |s.procs| ensures id !in Held(s.procs[v]) {
          if v != w { assert s'.procs[v] == s.procs[v]; }
        }
      }
    }
  }

  /** A sweep copies an entry it holds and has not copied yet. */
  lemma CopyStep(s: State, s': State, w: nat, id: nat)
    requires Exclusive(s) && w < |s.procs| == |s'.procs| && s'.procs == s.procs[w := s'.procs[w]]
    requires s'.pending == s.pending && s'.history.moved == s.history.moved + [Move(id, s.clock)]
    requires id in Held(s.procs[w]) && Held(s'.procs[w]) == Held(s.procs[w])
    requires Done(s'.procs[w]) == Done(s.procs[w]) + multiset{id} && Done(s'.procs[w])[id] <= Held(s.procs[w])[id]
    ensures Exclusive(s')
  {
    hide Held, Done;
    assert s'.history.moved[..|s'.history.moved| - 1] == s.history.moved;
    forall v | 0 <= v < |s'.procs| ensures Owns(s', v) {
      assert Owns(s, v) && Owns(s, w);
    }
    forall x | x in s'.pending && Unheld(s', x) ensures CopiesOf(s'.history.moved, x) == 0 {
      assert id in Held(s'.procs[w]);
      forall v | 0 <= v < |s.procs| ensures x !in Held(s.procs[v]) { assert x !in Held(s'.procs[v]); }
    }
    forall x ensures CopiesOf(s'.history.moved, x) <= 1 { assert Owns(s, w); }
  }

  lemma SweepCopies(s: State, w: nat)
    requires Exclusive(s) && w < |s.procs|
    ensures Exclusive(SweepPushStep(s, w)) && Exclusive(SweepAddStep(s, w))
  {
    hide Exclusive, Held, Done;
    var p := s.procs[w];
    if p.ClaimFetched? && p.todo != [] {
      HeldDeadLetter(p);
      CopyStep(s, SweepPushStep(s, w), w, p.todo[0].id);
    }
    if p.Claimed? && p.todo == [] && p.queued != [] {
      HeldAdd(p);
      CopyStep(s, SweepAddStep(s, w), w, p.queued[0].id);
    }
  }

  /** A claim in time takes only entries that no sweep under way holds. */
  lemma ClaimIsNew(c: Config, s: State, e: Entry)
    requires Lease(c, s) && Timely(c, s) && Idleness(c, s, e)
    ensures Unheld(s, e.id)
  {
    forall v | 0 <= v < |s.procs| ensures e.id !in Held(s.procs[v]) {
      assert ProcLease(c, s, s.procs[v]);
      if e.id in Held(s.procs[v]) {
        HeldEntry(s.procs[v], e.id);
        assert false;
      }
    }
  }

  lemma ClaimExclusive(c: Config, s: State, w: nat, batch: seq<Entry>, gone: set<nat>)
    requires Exclusive(s) && Lease(c, s) && Timely(c, s) && w < |s.procs|
    ensures Exclusive(ClaimStep(c, s, w, batch, gone))
  {
    hide Lease, Timely, Present;
    if s.procs[w] == Idle && Claimable(c, s, batch, gone) {
      var s' := ClaimStep(c, s, w, batch, gone);
      forall id | id in IdBag(batch)
        ensures Unheld(s, id) && id in s.pending && IdBag(batch)[id] == 1 && CopiesOf(s.history.moved, id) == 0
      {
        IdBagMember(batch, id);
        IdBagDistinct(batch, id);
        var e :| e in batch && e.id == id;
        var i :| 0 <= i < |batch| && batch[i] == e;
        assert Idleness(c, s, batch[i]);
        ClaimIsNew(c, s, e);
      }
      forall i | 0 <= i < |batch| ensures batch[i].id in s.pending { assert Idleness(c, s, batch[i]); }
      ClaimAdds(s, s', w, batch);
    }
  }

  lemma ClaimAdds(s: State, s': State, w: nat, batch: seq<Entry>)
    requires Exclusive(s) && w < |s.procs| && s.procs[w] == Idle
    requires s'.procs == s.procs[w := Claiming(batch, s.clock)]
    requires forall id | id in IdBag(batch) ::
               Unheld(s, id) && IdBag(batch)[id] == 1 && CopiesOf(s.history.moved, id) == 0
    requires s'.pending.Keys <= s.pending.Keys && s'.history == s.history
    ensures Exclusive(s')
  {
    hide IdBag, CopiesOf, Held, Done;
    EmptyBag(batch, s.clock);
    forall v | 0 <= v < |s'.procs| ensures Owns(s', v) {
      if v != w { assert Owns(s, v); }
    }
    forall u, v, id | 0 <= u < v < |s'.procs| ensures !(id in Held(s'.procs[u]) && id in Held(s'.procs[v])) {
      if u == w { assert s'.procs[v] == s.procs[v]; }
      if v == w { assert s'.procs[u] == s.procs[u]; }
    }
    forall id | id in s'.pending && Unheld(s', id) ensures CopiesOf(s'.history.moved, id) == 0 {
      forall v | 0 <= v < |s.procs| ensures id !in Held(s.procs[v]) {
        assert v != w ==> id !in Held(s'.procs[v]);
      }
    }
  }

  lemma EmptyBag(batch: seq<Entry>, at: nat)
    ensures Held(Claiming(batch, at)) == IdBag(batch) && Done(Claiming(batch, at)) == multiset{}
    ensures Held(Idle) == multiset{}
  {
  }

  /** Entries read now have never been copied. */
  lemma ReadExclusive(c: Config, s: State, max: nat)
    requires Exclusive(s) && Lease(c, s) && C.Inv(s)
    ensures Exclusive(ReadStep(s, max))
  {
    hide Unread, Readable, C.ProcsOk, Lease, Exclusive;
    var es := Unread(s.stream, s.lastRead, max);
    C.UnreadShape(s.stream, s.lastRead, max);
    if es != [] {
      var s' := ReadStep(s, max);
      forall i | 0 <= i < |es| ensures CopiesOf(s.history.moved, es[i].id) == 0 {
        assert es[i] in es;
        NeverCopied(c, s, es[i].id);
      }
      ReadAdds(s, s', es);
    }
  }

  lemma ReadAdds(s: State, s': State, es: seq<Entry>)
    requires Exclusive(s) && s'.pending == HandOut(s.pending, es, s.clock)
    requires s'.history.moved == s.history.moved
    requires forall i | 0 <= i < |es| :: CopiesOf(s.history.moved, es[i].id) == 0
    requires s'.procs == s.procs || s'.procs == s.procs + Deliveries(es)
    ensures Exclusive(s')
  {
    hide Held, Done, CopiesOf;
    forall v | |s.procs| <= v < |s'.procs| ensures Held(s'.procs[v]) == multiset{} {
      DeliveryHolds(es, v - |s.procs|);
    }
    forall v | 0 <= v < |s'.procs| ensures Owns(s', v) {
      if v < |s.procs| { assert Owns(s, v); }
    }
    forall id | id in s'.pending && Unheld(s', id) ensures CopiesOf(s'.history.moved, id) == 0 {
      forall v | 0 <= v < |s.procs| ensures id !in Held(s.procs[v]) { assert s'.procs[v] == s.procs[v]; }
    }
  }

  lemma DeliveryHolds(es: seq<Entry>, i: nat)
    requires i < |es|
    ensures Held(Delivered(es[i], false)) == multiset{}
  {
  }

  lemma NeverCopied(c: Config, s: State, id: nat)
    requires Lease(c, s) && id > s.lastRead
    ensures CopiesOf(s.history.moved, id) == 0
  {
    forall i | 0 <= i < |s.history.moved| ensures s.history.moved[i].id != id {
      assert MoveOk(c, s, s.history.moved[i]);
    }
    NoCopies(s.history.moved, id);
  }

  /** Steps of processes that are no sweeps, before and after. */
  lemma OtherStep(s: State, s': State, w: nat)
    requires Exclusive(s) && w < |s.procs| == |s'.procs| && s'.procs == s.procs[w := s'.procs[w]]
    requires s'.history.moved == s.history.moved && s'.pending.Keys <= s.pending.Keys
    requires !Sweeps(s.procs[w]) && !Sweeps(s'.procs[w])
    ensures Exclusive(s')
  {
    hide Exclusive;
    HoldFrame(s, s', w);
  }

  lemma StopExclusive(s: State, w: nat)
    requires Exclusive(s) && w < |s.procs| && Orderly(s, StopStep(s, w))
    ensures Exclusive(StopStep(s, w))
  {
    hide Exclusive, Owes;
    HoldFrame(s, StopStep(s, w), w);
  }

  lemma VisitExclusive(c: Config, s: State, w: nat)
    requires Exclusive(s) && w < |s.procs| && Orderly(s, SweepVisitStep(c, s, w))
    ensures Exclusive(SweepVisitStep(c, s, w))
  {
    hide Exclusive, Orderly, BodyOf, StopStep, Held, Done;
    var p := s.procs[w];
    if p.Claimed? && p.todo != [] {
      if SweepVisitStep(c, s, w) == StopStep(s, w) {
        StopExclusive(s, w);
      } else {
        HeldVisit(p, SweepVisitStep(c, s, w).procs[w]);
        HoldFrame(s, SweepVisitStep(c, s, w), w);
      }
    }
  }

  lemma SweepAckExclusive(s: State, w: nat)
    requires Exclusive(s) && w < |s.procs|
    ensures Exclusive(SweepAckStep(s, w))
  {
    hide Exclusive, GoneBodies;
    var p := s.procs[w];
    if p.Claimed? && p.todo == [] && p.queued == [] {
      var s' := SweepAckStep(s, w);
      forall id ensures id in Done(p) ==> id in IdSet(p.done) {
        IdBagMember(p.done, id);
        forall e | e in p.done ensures e.id in IdSet(p.done) {
          var i :| 0 <= i < |p.done| && p.done[i] == e;
        }
      }
      HoldFrame(s, s', w);
    }
  }

  lemma SettleExclusive(c: Config, s: State, w: nat, a: Action)
    requires Exclusive(s) && w < |s.procs|
    requires a.Ack? || a.AckDelete? || a.AckFails? || a.Nack? || a.NackPush? || a.NackAck? || a.NackFails?
             || a.SweepDelete?
    ensures Exclusive(ActionStep(c, s, w, a))
  {
    hide Exclusive, GoneBody, Present, XDel, BodyOf, StopStep, ClaimStep, SweepVisitStep, SweepPushStep,
         SweepAddStep, SweepAckStep, MoveReadStep, MoveAddStep, MoveRemoveStep, RedriveReadStep, RedriveAddStep,
         RedriveTurnStep, RedriveRemoveStep;
    if ActionStep(c, s, w, a) != s { OtherStep(s, ActionStep(c, s, w, a), w); }
  }

  lemma MoverExclusive(c: Config, s: State, w: nat, a: Action)
    requires Exclusive(s) && w < |s.procs|
    requires a.MoveRead? || a.MoveAdd? || a.MoveRemove? || a.RedriveRead? || a.RedriveAdd? || a.RedriveTurn?
             || a.RedriveRemove?
    ensures Exclusive(ActionStep(c, s, w, a))
  {
    hide Exclusive, Decode, PayloadOf, NoDup, Missed, RemoveEach, RemoveFirst, FirstOf, StopStep, ClaimStep,
         SweepVisitStep, SweepPushStep, SweepAddStep, SweepAckStep, SweepDeleteStep, AckStep, AckDeleteStep,
         AckFailsStep, NackStep, NackPushStep, NackAckStep, NackFailsStep;
    if ActionStep(c, s, w, a) != s { OtherStep(s, ActionStep(c, s, w, a), w); }
  }

  lemma ActionExclusive(c: Config, s: State, w: nat, a: Action)
    requires Exclusive(s) && Lease(c, s) && Timely(c, s) && w < |s.procs| && Orderly(s, ActionStep(c, s, w, a))
    ensures Exclusive(ActionStep(c, s, w, a))
  {
    hide StopStep, AckStep, AckDeleteStep, AckFailsStep, NackStep, NackPushStep, NackAckStep, NackFailsStep,
         ClaimStep, SweepVisitStep, SweepPushStep, SweepAddStep, SweepAckStep, SweepDeleteStep, MoveReadStep,
         MoveAddStep, MoveRemoveStep, RedriveReadStep, RedriveAddStep, RedriveTurnStep, RedriveRemoveStep, Lease,
         Exclusive, Orderly, Timely;
    match a
    case Stop => StopExclusive(s, w);
    case Claim(batch, gone) => ClaimExclusive(c, s, w, batch, gone);
    case SweepVisit => VisitExclusive(c, s, w);
    case SweepPush => SweepCopies(s, w);
    case SweepAdd => SweepCopies(s, w);
    case SweepAck => SweepAckExclusive(s, w);
    case MoveRead(_) => MoverExclusive(c, s, w, a);
    case MoveAdd => MoverExclusive(c, s, w, a);
    case MoveRemove => MoverExclusive(c, s, w, a);
    case RedriveRead => MoverExclusive(c, s, w, a);
    case RedriveAdd => MoverExclusive(c, s, w, a);
    case RedriveTurn => MoverExclusive(c, s, w, a);
    case RedriveRemove => MoverExclusive(c, s, w, a);
    case _ => SettleExclusive(c, s, w, a);
  }

  lemma ArrivalExclusive(s: State, s': State)
    requires Exclusive(s) && (s'.procs == s.procs || s'.procs == s.procs + [Idle])
    requires s'.pending == s.pending && s'.history.moved == s.history.moved
    ensures Exclusive(s')
  {
    forall v | 0 <= v < |s'.procs| ensures Owns(s', v) {
      if v < |s.procs| { assert Owns(s, v); }
    }
    forall id | id in s'.pending && Unheld(s', id) ensures CopiesOf(s'.history.moved, id) == 0 {
      forall v | 0 <= v < |s.procs| ensures id !in Held(s.procs[v]) { assert s'.procs[v] == s.procs[v]; }
    }
  }

  lemma StepExclusive(c: Config, s: State, e: Event)
    requires Exclusive(s) && Lease(c, s) && C.Inv(s) && Timely(c, s) && Orderly(s, Step(c, s, e))
    ensures Exclusive(Step(c, s, e))
  {
    hide ActionStep, ReadStep, Lease, C.Inv, Exclusive, Timely, Orderly;
    match e
    case Read(max) => ReadExclusive(c, s, max);
    case By(w, a) => if w < |s.procs| { ActionExclusive(c, s, w, a); }
    case _ => ArrivalExclusive(s, Step(c, s, e));
  }

  lemma {:induction false} RunExclusive(c: Config, es: seq<Event>)
    requires TimelyRun(c, es)
    ensures Exclusive(Run(c, es))
  {
    hide Step, Lease, C.Inv, Timely, Orderly, Exclusive;
    if es == [] {
      InitExclusive();
    } else {
      RunExclusive(c, es[..|es| - 1]);
      C.RunInv(c, es[..|es| - 1]);
      RunLease(c, es[..|es| - 1]);
      StepExclusive(c, Run(c, es[..|es| - 1]), es[|es| - 1]);
    }
  }

  lemma InitExclusive()
    ensures Exclusive(INIT)
  {
  }

  /**
   * When every sweep acknowledges what it copied within the deadline of its claim, no entry is copied twice,
   * whichever sweeps run at once; and no entry is in the hands of two sweeps.
   */
  lemma NeverRequeuedTwice(c: Config, es: seq<Event>, id: nat)
    requires TimelyRun(c, es)
    ensures CopiesOf(Run(c, es).history.moved, id) <= 1
    ensures forall v, w | 0 <= v < w < |Run(c, es).procs| ::
              !(id in Held(Run(c, es).procs[v]) && id in Held(Run(c, es).procs[w]))
  {
    hide Run, TimelyRun;
    RunExclusive(c, es);
  }
}

/**
 * When the stream protocol duplicates nothing: exactly as long as no process stops or fails owing a removal, and every
 * removal finds what it is for. And why the mover meets no decode error.
 */
module StreamsUndisturbed {
  import opened Bytes
  import opened Codec
  import opened RedisLists
  import opened Retry
  import opened StreamsProtocol
  import C = StreamsConservation

  /** The process has made copies whose originals it has not acknowledged or removed yet. */
  predicate Owing(p: Proc) {
    match p
    case NackPushed(_, _) => true
    case Claimed(_, _, done, _) => done != []
    case ClaimFetched(_, _, done, _, _) => done != []
    case MoveAdding(added, _) => added != []
    case RedriveAdding(readded, _) => readded != []
    case RedriveRemoving(bodies) => bodies != []
    case _ => false
  }

  /** An XACK of the entry takes it out of circulation. */
  predicate Recoverable(s: State, e: Entry) { e.id in s.pending && Present(s.stream, e.id) }

  /** Acknowledging each of `es` in turn finds it recoverable. */
  predicate FindsEntries(s: State, es: seq<Entry>)
    decreases |es|
  {
    es == [] || (Recoverable(s, es[0]) && FindsEntries(s.(pending := s.pending - {es[0].id}), es[1..]))
  }

  /** The sweep cannot go on with its next entry. */
  predicate Breaks(c: Config, s: State, p: Proc) {
    && p.Claimed? && p.todo != []
    && (!Readable(p.todo[0]) || (AtLimit(c.limit, p.todo[0].count + 1) && BodyOf(s.stream, p.todo[0].id).None?))
  }

  /** Action `a` neither gives up a removal nor makes one that finds nothing. */
  predicate Clean(c: Config, s: State, p: Proc, a: Action) {
    match a
    case Stop => !Owing(p)
    case NackFails => !p.NackPushed?
    case NackAck => p.NackPushed? ==> !p.settled && Recoverable(s, p.entry)
    case SweepVisit => Breaks(c, s, p) ==> !Owing(p)
    case SweepAck => p.Claimed? && p.todo == [] && p.queued == [] ==> FindsEntries(s, p.done)
    case MoveRemove => p.MoveAdding? && p.waiting == [] ==> FindsEach(s.delayed, p.added)
    case RedriveRemove => p.RedriveRemoving? && p.bodies != [] ==> p.bodies[0] in s.dlq
    case _ => true
  }

  predicate Undisturbed(c: Config, s: State, e: Event) {
    e.By? && e.w < |s.procs| ==> Clean(c, s, s.procs[e.w], e.action)
  }

  predicate UndisturbedRun(c: Config, es: seq<Event>) {
    es == []
    || (UndisturbedRun(c, es[..|es| - 1]) && Undisturbed(c, Run(c, es[..|es| - 1]), es[|es| - 1]))
  }

  lemma SomeBodies(es: seq<Entry>)
    ensures Bodies(es) == multiset{} <==> es == []
  {
    if es != [] { assert es[0].payload in Bodies(es); }
  }

  lemma OwesSomething(p: Proc)
    ensures Owes(p) == multiset{} <==> !Owing(p)
  {
    hide Bodies, Payloads;
    match p
    case NackPushed(e, _) => assert e.payload in Owes(p);
    case Claimed(_, _, done, _) => SomeBodies(done);
    case ClaimFetched(_, _, done, _, _) => SomeBodies(done);
    case MoveAdding(added, _) => SomePayloads(added);
    case RedriveAdding(readded, _) => if readded != [] { assert readded[0] in Owes(p); }
    case RedriveRemoving(bodies) => if bodies != [] { assert bodies[0] in Owes(p); }
    case _ =>
  }

  lemma {:induction false} NoneGone(s: State, es: seq<Entry>)
    ensures GoneBodies(s, es) == multiset{} <==> FindsEntries(s, es)
    decreases |es|
  {
    hide Present;
    if es != [] {
      var rest := s.(pending := s.pending - {es[0].id});
      NoneGone(rest, es[1..]);
      NoSum(GoneBody(s, es[0]), GoneBodies(rest, es[1..]));
      assert es[0].payload in multiset{es[0].payload};
    }
  }

  /** What an action adds to the surplus. */
  function Extra(c: Config, s: State, p: Proc, a: Action): multiset<Bytes> {
    match a
    case Stop => Owes(p)
    case NackFails => if p.NackPushed? then multiset{p.entry.payload} else multiset{}
    case NackAck =>
      if !p.NackPushed? then multiset{} else if p.settled then multiset{p.entry.payload} else GoneBody(s, p.entry)
    case SweepVisit => if Breaks(c, s, p) then Owes(p) else multiset{}
    case SweepAck => if p.Claimed? && p.todo == [] && p.queued == [] then GoneBodies(s, p.done) else multiset{}
    case MoveRemove => if p.MoveAdding? && p.waiting == [] then Missed(s.delayed, p.added) else multiset{}
    case RedriveRemove =>
      if p.RedriveRemoving? && p.bodies != [] && p.bodies[0] !in s.dlq then multiset{p.bodies[0]} else multiset{}
    case _ => multiset{}
  }

  lemma SettlerExtra(c: Config, s: State, w: nat, a: Action)
    requires w < |s.procs|
    requires a.Stop? || a.Ack? || a.AckDelete? || a.AckFails? || a.Nack? || a.NackPush? || a.NackAck? || a.NackFails?
    ensures ActionStep(c, s, w, a).history.surplus == s.history.surplus + Extra(c, s, s.procs[w], a)
  {
    hide Present, XDel, BodyOf, Owes, GoneBody, GoneBodies, Missed, AtLimit, ClaimStep, SweepVisitStep,
         SweepPushStep, SweepAddStep, SweepAckStep, SweepDeleteStep, MoveReadStep, MoveAddStep, MoveRemoveStep,
         RedriveReadStep, RedriveAddStep, RedriveTurnStep, RedriveRemoveStep;
  }

  lemma SweepExtra(c: Config, s: State, w: nat, a: Action)
    requires w < |s.procs|
    requires a.Claim? || a.SweepVisit? || a.SweepPush? || a.SweepAdd? || a.SweepAck? || a.SweepDelete?
    ensures ActionStep(c, s, w, a).history.surplus == s.history.surplus + Extra(c, s, s.procs[w], a)
  {
    hide Present, XDel, BodyOf, Owes, GoneBody, GoneBodies, Missed, AtLimit, Claimable, HandOut, Readable, AckStep,
         AckDeleteStep, AckFailsStep, NackStep, NackPushStep, NackAckStep, NackFailsStep, MoveReadStep, MoveAddStep,
         MoveRemoveStep, RedriveReadStep, RedriveAddStep, RedriveTurnStep, RedriveRemoveStep;
  }

  lemma MoverExtra(c: Config, s: State, w: nat, a: Action)
    requires w < |s.procs|
    requires a.MoveRead? || a.MoveAdd? || a.MoveRemove? || a.RedriveRead? || a.RedriveAdd? || a.RedriveTurn?
             || a.RedriveRemove?
    ensures ActionStep(c, s, w, a).history.surplus == s.history.surplus + Extra(c, s, s.procs[w], a)
  {
    hide PayloadOf, MoveReply, AllDecode, Missed, RemoveEach, RemoveFirst, FirstOf, Owes, GoneBody, GoneBodies,
         StopStep, ClaimStep, SweepVisitStep, SweepPushStep, SweepAddStep, SweepAckStep, SweepDeleteStep, AckStep,
         AckDeleteStep, AckFailsStep, NackStep, NackPushStep, NackAckStep, NackFailsStep;
  }

  lemma CleanMeansNoExtra(c: Config, s: State, p: Proc, a: Action)
    ensures Extra(c, s, p, a) == multiset{} <==> Clean(c, s, p, a)
  {
    hide Owes, Present, Missed, GoneBodies, FindsEntries, Breaks;
    OwesSomething(p);
    match a
    case NackFails => if p.NackPushed? { assert p.entry.payload in multiset{p.entry.payload}; }
    case NackAck => if p.NackPushed? { assert p.entry.payload in multiset{p.entry.payload}; }
    case SweepAck => if p.Claimed? { NoneGone(s, p.done); }
    case MoveRemove => if p.MoveAdding? { MissedNothing(s.delayed, p.added); }
    case RedriveRemove => if p.RedriveRemoving? && p.bodies != [] { assert p.bodies[0] in multiset{p.bodies[0]}; }
    case _ =>
  }

  lemma ExtraIsAdded(c: Config, s: State, w: nat, a: Action)
    requires w < |s.procs|
    ensures ActionStep(c, s, w, a).history.surplus == s.history.surplus + Extra(c, s, s.procs[w], a)
  {
    hide ActionStep, Extra;
    if a.Claim? || a.SweepVisit? || a.SweepPush? || a.SweepAdd? || a.SweepAck? || a.SweepDelete? {
      SweepExtra(c, s, w, a);
    } else if a.MoveRead? || a.MoveAdd? || a.MoveRemove? || a.RedriveRead? || a.RedriveAdd? || a.RedriveTurn?
              || a.RedriveRemove? {
      MoverExtra(c, s, w, a);
    } else {
      SettlerExtra(c, s, w, a);
    }
  }

  lemma SurplusStep(c: Config, s: State, e: Event)
    ensures Step(c, s, e).history.surplus == multiset{} <==> s.history.surplus == multiset{} && Undisturbed(c, s, e)
  {
    hide ActionStep, Extra, Clean, Unread, HandOut, NewMessage;
    if e.By? && e.w < |s.procs| {
      ExtraIsAdded(c, s, e.w, e.action);
      CleanMeansNoExtra(c, s, s.procs[e.w], e.action);
      NoSum(s.history.surplus, Extra(c, s, s.procs[e.w], e.action));
    }
  }

  /** A copy is left without a remover exactly in runs where a process gives up a removal or finds nothing to remove. */
  lemma {:induction false} SurplusOnlyWhenDisturbed(c: Config, es: seq<Event>)
    ensures Run(c, es).history.surplus == multiset{} <==> UndisturbedRun(c, es)
  {
    hide Step, Undisturbed;
    if es != [] {
      SurplusOnlyWhenDisturbed(c, es[..|es| - 1]);
      SurplusStep(c, Run(c, es[..|es| - 1]), es[|es| - 1]);
    }
  }

  lemma {:induction false} NobodyOwes(procs: seq<Proc>, x: Bytes)
    requires forall w | 0 <= w < |procs| :: !Owing(procs[w])
    ensures C.Owed(procs, x) == 0
  {
    hide Owes, Owing;
    if procs != [] {
      OwesSomething(procs[0]);
      NobodyOwes(procs[1..], x);
    }
  }

  /** Whenever nobody has a removal to make, an undisturbed run has neither lost nor doubled anything. */
  lemma {:induction false} ExactWhenUndisturbed(c: Config, es: seq<Event>, x: Bytes)
    requires UndisturbedRun(c, es) && forall w | 0 <= w < |Run(c, es).procs| :: !Owing(Run(c, es).procs[w])
    ensures var s := Run(c, es); C.Held(s, x) + s.history.acked[x] == s.history.sent[x]
  {
    hide Run, UndisturbedRun, C.Held, Owing;
    SurplusOnlyWhenDisturbed(c, es);
    NobodyOwes(Run(c, es).procs, x);
    C.Conservation(c, es, x);
  }

  // ----- delayed keys decode -----

  predicate Shrinks(s: State, s': State) {
    forall k | k in s'.delayed :: k in s.delayed
  }

  lemma MoveRemoveShrinks(s: State, w: nat)
    requires w < |s.procs|
    ensures Shrinks(s, MoveRemoveStep(s, w))
  {
    hide Missed, RemoveEach;
    if s.procs[w].MoveAdding? {
      forall k | k in RemoveEach(s.delayed, s.procs[w].added) ensures k in s.delayed {
        RemoveEachMember(s.delayed, s.procs[w].added, k);
      }
    }
  }

  lemma DelayedStays(c: Config, s: State, w: nat, a: Action)
    requires w < |s.procs| && !a.MoveRemove?
    ensures ActionStep(c, s, w, a).delayed == s.delayed
  {
    hide PayloadOf, MoveReply, AllDecode, RemoveFirst, FirstOf, Owes, GoneBody, GoneBodies, Present, XDel, BodyOf,
         AtLimit, Claimable, HandOut, Readable, MoveRemoveStep;
  }

  lemma {:induction false} DelayedAreNew(c: Config, es: seq<Event>)
    ensures forall k | k in Run(c, es).delayed :: NewMessage(k)
  {
    hide ActionStep, NewMessage, Unread, HandOut;
    if es != [] {
      var (s, e) := (Run(c, es[..|es| - 1]), es[|es| - 1]);
      DelayedAreNew(c, es[..|es| - 1]);
      if e.By? && e.w < |s.procs| {
        if e.action.MoveRemove? { MoveRemoveIs(c, s, e.w); MoveRemoveShrinks(s, e.w); }
        else { DelayedStays(c, s, e.w, e.action); }
      }
    }
  }

  lemma MoveRemoveIs(c: Config, s: State, w: nat)
    requires w < |s.procs|
    ensures ActionStep(c, s, w, MoveRemove) == MoveRemoveStep(s, w)
  {
    hide MoveRemoveStep;
  }

  /** In every reachable state the mover goes on to copy whatever it reads. */
  lemma {:induction false} MoverGoesOn(c: Config, es: seq<Event>, w: nat, members: seq<Key>)
    requires w < |Run(c, es).procs| && Run(c, es).procs[w] == Idle && MoveReply(Run(c, es), members)
    ensures MoveReadStep(Run(c, es), w, members).procs[w] == MoveAdding([], members)
  {
    hide HasForm, CountOf, PayloadOf, Decode, Run;
    DelayedAreNew(c, es);
    forall i | 0 <= i < |members| ensures Decode(members[i]).Ok? {
      assert NewMessage(members[i]);
      FormDecodes(members[i]);
    }
  }
}

/**
 * When the list protocol duplicates nothing: exactly as long as no process stops or fails owing a removal, and every
 * removal finds what it is for.
 */
module FallbackUndisturbed {
  import opened Bytes
  import opened Codec
  import opened RedisLists
  import opened Retry
  import opened FallbackProtocol
  import C = FallbackConservation

  /** The process has pushed copies whose originals it has not removed yet. */
  predicate Owing(p: Proc) {
    match p
    case NackRemoving(_, _, _) => true
    case SweepRemoving(_, batch) => batch != []
    case MoveRemoving(batch) => batch != []
    case RedriveRemoving(bodies) => bodies != []
    case _ => false
  }

  /** Action `a` neither gives up a removal nor makes one that finds nothing. */
  predicate Clean(s: State, p: Proc, a: Action) {
    match a
    case Stop => !Owing(p)
    case NackFails => !p.NackRemoving?
    case NackRemove(_) => p.NackRemoving? ==> !p.settled && p.key in s.processing
    case SweepRemove => p.SweepRemoving? && p.batch != [] ==> p.batch[0] in s.processing
    case MoveRemove => p.MoveRemoving? ==> FindsEach(s.delayed, p.batch)
    case RedriveRemove => p.RedriveRemoving? && p.bodies != [] ==> p.bodies[0] in s.dlq
    case _ => true
  }

  predicate Undisturbed(s: State, e: Event) {
    e.By? && e.w < |s.procs| ==> Clean(s, s.procs[e.w], e.action)
  }

  predicate UndisturbedRun(dlq: Limit, es: seq<Event>) {
    es == []
    || (UndisturbedRun(dlq, es[..|es| - 1]) && Undisturbed(Run(dlq, es[..|es| - 1]), es[|es| - 1]))
  }

  lemma OwesSomething(p: Proc)
    ensures Owes(p) == multiset{} <==> !Owing(p)
  {
    hide PayloadOf, Payloads;
    match p
    case NackRemoving(key, _, _) => assert PayloadOf(key) in Owes(p);
    case SweepRemoving(_, batch) => if batch != [] { assert PayloadOf(batch[0]) in Owes(p); }
    case MoveRemoving(batch) => SomePayloads(batch);
    case RedriveRemoving(bodies) => if bodies != [] { assert bodies[0] in Owes(p); }
    case _ =>
  }

  /** What an action adds to the surplus. */
  function Extra(s: State, p: Proc, a: Action): multiset<Bytes> {
    match a
    case Stop => Owes(p)
    case NackFails => if p.NackRemoving? then multiset{PayloadOf(p.key)} else multiset{}
    case NackRemove(_) =>
      if !p.NackRemoving? then multiset{}
      else if p.settled then multiset{PayloadOf(p.key)} else MissedOne(s.processing, p.key)
    case SweepRemove => if p.SweepRemoving? && p.batch != [] then MissedOne(s.processing, p.batch[0]) else multiset{}
    case MoveRemove => if p.MoveRemoving? then Missed(s.delayed, p.batch) else multiset{}
    case RedriveRemove =>
      if p.RedriveRemoving? && p.bodies != [] && p.bodies[0] !in s.dlq then multiset{p.bodies[0]} else multiset{}
    case _ => multiset{}
  }

  lemma ExtraIsAdded(dlq: Limit, s: State, w: nat, a: Action)
    requires w < |s.procs|
    ensures ActionStep(dlq, s, w, a).surplus == s.surplus + Extra(s, s.procs[w], a)
  {
    hide Decode, Encode, PayloadOf, PayloadSeq, Payloads, FreshKeys, PushHeads, RemoveFirst, RemoveEach, Missed,
         MissedOne, Owes, AtMost, AtLimit, AllDecode, MoveReply, FreshBatch, DeadLetterBody;
  }

  lemma CleanMeansNoExtra(s: State, p: Proc, a: Action)
    ensures Extra(s, p, a) == multiset{} <==> Clean(s, p, a)
  {
    hide PayloadOf, Owes;
    match a
    case Stop => OwesSomething(p);
    case NackFails => if p.NackRemoving? { assert PayloadOf(p.key) in multiset{PayloadOf(p.key)}; }
    case NackRemove(_) => if p.NackRemoving? { assert PayloadOf(p.key) in multiset{PayloadOf(p.key)}; }
    case SweepRemove =>
      if p.SweepRemoving? && p.batch != [] { assert PayloadOf(p.batch[0]) in multiset{PayloadOf(p.batch[0])}; }
    case MoveRemove => if p.MoveRemoving? { MissedNothing(s.delayed, p.batch); }
    case RedriveRemove => if p.RedriveRemoving? && p.bodies != [] { assert p.bodies[0] in multiset{p.bodies[0]}; }
    case _ =>
  }

  lemma SurplusStep(dlq: Limit, s: State, e: Event)
    ensures Step(dlq, s, e).surplus == multiset{} <==> s.surplus == multiset{} && Undisturbed(s, e)
  {
    hide ActionStep, Extra, Clean;
    if e.By? && e.w < |s.procs| {
      ExtraIsAdded(dlq, s, e.w, e.action);
      CleanMeansNoExtra(s, s.procs[e.w], e.action);
      NoSum(s.surplus, Extra(s, s.procs[e.w], e.action));
    }
  }

  /** A copy is left without a remover exactly in runs where a process gives up a removal or finds nothing to remove. */
  lemma {:induction false} SurplusOnlyWhenDisturbed(dlq: Limit, es: seq<Event>)
    ensures Run(dlq, es).surplus == multiset{} <==> UndisturbedRun(dlq, es)
  {
    hide Step, Undisturbed;
    if es != [] {
      SurplusOnlyWhenDisturbed(dlq, es[..|es| - 1]);
      SurplusStep(dlq, Run(dlq, es[..|es| - 1]), es[|es| - 1]);
    }
  }

  lemma {:induction false} NobodyOwes(procs: seq<Proc>)
    ensures C.Owed(procs) == multiset{} <==> forall w | 0 <= w < |procs| :: !Owing(procs[w])
  {
    hide Owes, Owing;
    if procs != [] {
      OwesSomething(procs[0]);
      NobodyOwes(procs[1..]);
      NoSum(Owes(procs[0]), C.Owed(procs[1..]));
      forall w | 0 < w < |procs| ensures Owing(procs[w]) <==> Owing(procs[1..][w - 1]) {}
    }
  }

  /** Whenever nobody has a removal to make, an undisturbed run has neither lost nor doubled anything. */
  lemma {:induction false} ExactWhenUndisturbed(dlq: Limit, es: seq<Event>)
    requires UndisturbedRun(dlq, es) && forall w | 0 <= w < |Run(dlq, es).procs| :: !Owing(Run(dlq, es).procs[w])
    ensures var s := Run(dlq, es); C.Copies(s) + s.acked == s.sent
  {
    SurplusOnlyWhenDisturbed(dlq, es);
    NobodyOwes(Run(dlq, es).procs);
    C.Conservation(dlq, es);
    var s := Run(dlq, es);
    assert s.sent + multiset{} + multiset{} == s.sent;
  }
}

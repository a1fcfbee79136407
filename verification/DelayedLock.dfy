/**
 * The lock of the delayed mover, in time. Workers try `SET lock NX PX 5000`, read what is due, copy it, remove it and
 * delete the lock, one command per step; the delete does not check whose lock it is. A worker that fails leaves the
 * lock to expire. Copies are steps of their own, as in a pipeline; a single LPUSH is the case without anything between.
 */
module DelayedLock {
  import opened Bytes
  import opened Codec
  import opened RedisLists
  import opened Retry
  import D = DelayedSet

  const LOCK_MS: nat := 5000

  datatype Proc =
    | Idle
    | Locked(at: nat)
      // read a batch, the first `copied` of it are in the main queue
    | Moving(at: nat, batch: seq<Bytes>, copied: nat)
      // ZREM ran, or nothing was due; DEL comes next
    | Releasing(at: nat)

  datatype Copy = Copy(key: Bytes, score: nat, time: nat)

  /** Milliseconds, the expiry of the lock, the sorted set as scores of keys, every key ever added, every copy. */
  datatype State = State(now: nat, lock: Option<nat>, delayed: map<Bytes, nat>, procs: seq<Proc>,
                         added: map<Bytes, nat>, copies: seq<Copy>)

  datatype Command = TrySet | ReadDue(batch: seq<Bytes>) | CopyOne | Remove | Release | Fail

  datatype Event = Tick(ms: nat) | Spawn | Add(key: Bytes, score: nat) | By(w: nat, command: Command)

  const INIT: State := State(0, None, map[], [], map[], [])

  // ----- steps -----

  function Put(s: State, w: nat, p: Proc): State
    requires w < |s.procs|
  {
    s.(procs := s.procs[w := p])
  }

  predicate LockFree(s: State) { s.lock == None || s.now >= s.lock.value }

  /** Due at `now`: the score is at most the second before. */
  predicate IsDue(now: nat, score: nat) { now >= 1000 && score <= now / 1000 - 1 }

  /** A reply to ZRANGEBYSCORE with a limit of 50. */
  predicate DueReply(s: State, batch: seq<Bytes>) {
    && |batch| <= MOVE_BATCH && NoDup(batch)
    && (forall i | 0 <= i < |batch| :: batch[i] in s.delayed && IsDue(s.now, s.delayed[batch[i]]))
    && (|batch| < MOVE_BATCH ==> forall k | k in s.delayed :: IsDue(s.now, s.delayed[k]) ==> k in batch)
  }

  function ReadDueStep(s: State, w: nat, batch: seq<Bytes>): State
    requires w < |s.procs|
  {
    if !s.procs[w].Locked? || !DueReply(s, batch) then s
    else if batch == [] then Put(s, w, Releasing(s.procs[w].at))
    else if forall i | 0 <= i < |batch| :: Decode(batch[i]).Ok? then Put(s, w, Moving(s.procs[w].at, batch, 0))
    else Put(s, w, Idle)
  }

  function CopyStep(s: State, w: nat): State
    requires w < |s.procs|
  {
    match s.procs[w]
    case Moving(at, batch, n) =>
      if n >= |batch| then s
      else
        var score := if batch[n] in s.added then s.added[batch[n]] else 0;
        Put(s, w, Moving(at, batch, n + 1)).(copies := s.copies + [Copy(batch[n], score, s.now)])
    case _ => s
  }

  function CommandStep(s: State, w: nat, c: Command): State
    requires w < |s.procs|
  {
    match c
    case TrySet =>
      if s.procs[w] == Idle && LockFree(s) then Put(s, w, Locked(s.now)).(lock := Some(s.now + LOCK_MS)) else s
    case ReadDue(batch) => ReadDueStep(s, w, batch)
    case CopyOne => CopyStep(s, w)
    case Remove =>
      (match s.procs[w]
       case Moving(at, batch, n) =>
         if n != |batch| then s
         else Put(s, w, Releasing(at)).(delayed := s.delayed - (set i | 0 <= i < |batch| :: batch[i]))
       case _ => s)
    case Release => if s.procs[w].Releasing? then Put(s, w, Idle).(lock := None) else s
    case Fail => Put(s, w, Idle)
  }

  /** The next state; an event that the state does not allow changes nothing. Keys are never reused. */
  function Step(s: State, e: Event): State {
    match e
    case Tick(ms) => s.(now := s.now + ms)
    case Spawn => s.(procs := s.procs + [Idle])
    case Add(key, score) =>
      if key in s.added then s else s.(delayed := s.delayed[key := score], added := s.added[key := score])
    case By(w, c) => if w < |s.procs| then CommandStep(s, w, c) else s
  }

  function Run(es: seq<Event>): State {
    if es == [] then INIT else Step(Run(es[..|es| - 1]), es[|es| - 1])
  }

  // ----- timely runs -----

  predicate Holds(s: State, w: nat) { w < |s.procs| && !s.procs[w].Idle? }

  /** Time does not take a holder to its deadline: it has finished or failed less than 5000 ms after its SET. */
  predicate Timely(s: State, e: Event) {
    e.Tick? ==> forall w | 0 <= w < |s.procs| :: Holds(s, w) ==> s.now + e.ms < s.procs[w].at + LOCK_MS
  }

  /** No failure between the first copy and the removal. */
  predicate Clean(s: State, e: Event) {
    e.By? && e.w < |s.procs| && e.command.Fail? && s.procs[e.w].Moving? ==> s.procs[e.w].copied == 0
  }

  ghost predicate TimelyRun(es: seq<Event>) {
    forall i | 0 <= i < |es| :: Timely(Run(es[..i]), es[i])
  }

  ghost predicate CleanRun(es: seq<Event>) {
    forall i | 0 <= i < |es| :: Clean(Run(es[..i]), es[i])
  }

  /** A worker in its critical section owns the lock, and the lock has not expired. */
  predicate Owns(s: State, w: nat)
    requires Holds(s, w)
  {
    s.procs[w].at <= s.now < s.procs[w].at + LOCK_MS && s.lock == Some(s.procs[w].at + LOCK_MS)
  }

  ghost predicate Exclusive(s: State) {
    && (forall w | 0 <= w < |s.procs| :: Holds(s, w) ==> Owns(s, w))
    && (forall v, w | 0 <= v < |s.procs| && 0 <= w < |s.procs| :: Holds(s, v) && Holds(s, w) ==> v == w)
  }

  /** A holder after a step held the lock before, since the same SET, or has just set it. */
  lemma HoldersAfter(s: State, e: Event, v: nat)
    requires Holds(Step(s, e), v)
    ensures var s' := Step(s, e);
            || (Holds(s, v) && s'.procs[v].at == s.procs[v].at)
            || (e == By(v, TrySet) && LockFree(s) && s'.procs[v] == Locked(s.now) && s'.lock == Some(s.now + LOCK_MS))
  {
    hide Decode, DueReply;
  }

  /** The lock changes only by a SET that finds it free and by the DEL of a holder, who then is none. */
  lemma LockAfter(s: State, e: Event)
    ensures var s' := Step(s, e);
            s'.lock == s.lock || (e.By? && e.command.TrySet? && LockFree(s))
            || (e.By? && Holds(s, e.w) && !Holds(s', e.w))
    ensures Step(s, e).now == if e.Tick? then s.now + e.ms else s.now
  {
    hide Decode, DueReply;
  }

  lemma ExclusiveStep(s: State, e: Event)
    requires Exclusive(s) && Timely(s, e)
    ensures Exclusive(Step(s, e))
  {
    hide Step;
    var s' := Step(s, e);
    LockAfter(s, e);
    if LockFree(s) { FreeMeansNoHolder(s); }
    forall w | 0 <= w < |s'.procs| && Holds(s', w) ensures Owns(s', w) {
      HoldersAfter(s, e, w);
      assert Holds(s, w) ==> Owns(s, w);
      assert e.By? && Holds(s, e.w) && Holds(s, w) ==> e.w == w;
    }
    forall v, w | 0 <= v < |s'.procs| && 0 <= w < |s'.procs| && Holds(s', v) && Holds(s', w) ensures v == w {
      HoldersAfter(s, e, v);
      HoldersAfter(s, e, w);
    }
  }

  lemma FreeMeansNoHolder(s: State)
    requires Exclusive(s) && LockFree(s)
    ensures forall w: nat :: !Holds(s, w)
  {
    forall w: nat ensures !Holds(s, w) {
      assert Holds(s, w) ==> Owns(s, w);
    }
  }

  lemma RunDropsLast(es: seq<Event>)
    requires es != []
    ensures TimelyRun(es) ==> TimelyRun(es[..|es| - 1]) && Timely(Run(es[..|es| - 1]), es[|es| - 1])
    ensures CleanRun(es) ==> CleanRun(es[..|es| - 1]) && Clean(Run(es[..|es| - 1]), es[|es| - 1])
  {
    hide Run, Timely, Clean;
    var front := es[..|es| - 1];
    forall i | 0 <= i < |front| ensures front[..i] == es[..i] && front[i] == es[i] {}
  }

  /** In a timely run at most one worker is between SET and DEL, and the lock is its own, so DEL deletes no other's. */
  lemma {:induction false} AtMostOneHolder(es: seq<Event>)
    requires TimelyRun(es)
    ensures Exclusive(Run(es))
  {
    hide Exclusive, Timely, Step;
    if es == [] {
      assert Exclusive(INIT) by { InitExclusive(); }
    } else {
      RunDropsLast(es);
      AtMostOneHolder(es[..|es| - 1]);
      ExclusiveStep(Run(es[..|es| - 1]), es[|es| - 1]);
    }
  }

  lemma InitExclusive()
    ensures Exclusive(INIT)
  {
  }

  // ----- each member is copied once -----

  function Times(copies: seq<Copy>, key: Bytes): nat {
    if copies == [] then 0 else Times(copies[..|copies| - 1], key) + if copies[|copies| - 1].key == key then 1 else 0
  }

  /** A worker has copied `key` and not yet removed it. */
  ghost predicate InFlight(s: State, key: Bytes) {
    exists w: nat :: CarriedBy(s, w, key)
  }

  predicate CarriedBy(s: State, w: nat, key: Bytes) { w < |s.procs| && Carries(s.procs[w], key) }

  predicate Carries(p: Proc, key: Bytes) {
    p.Moving? && p.copied <= |p.batch| && key in p.batch[..p.copied]
  }

  /** Batches hold members that are due and still there. */
  predicate BatchOk(s: State, p: Proc) {
    p.Moving? ==>
      && p.copied <= |p.batch| && NoDup(p.batch)
      && forall i | 0 <= i < |p.batch| :: p.batch[i] in s.delayed && IsDue(s.now, s.delayed[p.batch[i]])
  }

  ghost predicate StoreOk(s: State) {
    s.delayed.Keys <= s.added.Keys && forall w | 0 <= w < |s.procs| :: BatchOk(s, s.procs[w])
  }

  ghost function Expected(s: State, key: Bytes): nat {
    if key in s.added && (key !in s.delayed || InFlight(s, key)) then 1 else 0
  }

  /** Only the holder carries anything. */
  lemma OnlyCarrier(s: State, w: nat, key: Bytes)
    requires Exclusive(s) && Holds(s, w)
    ensures InFlight(s, key) <==> Carries(s.procs[w], key)
  {
    hide Owns;
    assert Carries(s.procs[w], key) <==> CarriedBy(s, w, key);
    forall v: nat | CarriedBy(s, v, key) ensures v == w {
      assert Holds(s, v);
    }
  }

  lemma BatchAfter(s: State, e: Event, v: nat)
    requires Exclusive(s) && StoreOk(s) && v < |Step(s, e).procs|
    ensures BatchOk(Step(s, e), Step(s, e).procs[v])
  {
    hide Decode, Exclusive, Owns, LockFree;
    assert v < |s.procs| ==> BatchOk(s, s.procs[v]);
    if e.By? && e.w < |s.procs| && v < |s.procs| && e.w != v && s.procs[v].Moving? && e.command.Remove? {
      OneHolder(s, e.w, v);
    }
  }

  lemma OneHolder(s: State, v: nat, w: nat)
    requires Exclusive(s) && v != w
    ensures !Holds(s, v) || !Holds(s, w)
  {
  }

  lemma StoreStep(s: State, e: Event)
    requires Exclusive(s) && StoreOk(s)
    ensures StoreOk(Step(s, e))
  {
    forall v | 0 <= v < |Step(s, e).procs| ensures BatchOk(Step(s, e), Step(s, e).procs[v]) {
      BatchAfter(s, e, v);
    }
    hide Decode, Exclusive, BatchOk, DueReply;
  }

  ghost predicate CopiedOnce(s: State) {
    forall key :: Times(s.copies, key) == Expected(s, key)
  }

  /** A step that leaves the copies, the members and everybody's carried keys as they are. */
  lemma NothingCopied(s: State, s': State, key: Bytes)
    requires s'.copies == s.copies && s'.added == s.added && s'.delayed == s.delayed
    requires forall v: nat :: CarriedBy(s', v, key) <==> CarriedBy(s, v, key)
    ensures Expected(s', key) == Expected(s, key)
  {
  }

  lemma CarriedAfter(s: State, e: Event, key: Bytes, v: nat)
    requires Clean(s, e) && !(e.By? && (e.command.CopyOne? || e.command.Remove?))
    ensures var s' := Step(s, e);
            CarriedBy(s', v, key) <==> CarriedBy(s, v, key)
  {
    hide Decode, DueReply;
  }

  lemma AddStep(s: State, e: Event, key: Bytes)
    requires StoreOk(s) && e.Add? && Times(s.copies, key) == Expected(s, key)
    ensures Times(Step(s, e).copies, key) == Expected(Step(s, e), key)
  {
    hide Times;
    var s' := Step(s, e);
    forall v | 0 <= v < |s.procs| && Carries(s.procs[v], key) ensures key in s.delayed {
      assert BatchOk(s, s.procs[v]);
    }
    assert s'.procs == s.procs;
    assert forall v: nat :: CarriedBy(s', v, key) <==> CarriedBy(s, v, key);
    assert InFlight(s', key) <==> InFlight(s, key);
  }

  lemma CopyOnce(s: State, w: nat, key: Bytes)
    requires w < |s.procs| && Exclusive(s) && Exclusive(CopyStep(s, w)) && StoreOk(s)
    requires Times(s.copies, key) == Expected(s, key)
    ensures Times(CopyStep(s, w).copies, key) == Expected(CopyStep(s, w), key)
  {
    var s' := CopyStep(s, w);
    if s.procs[w].Moving? && s.procs[w].copied < |s.procs[w].batch| {
      var (batch, n) := (s.procs[w].batch, s.procs[w].copied);
      assert BatchOk(s, s.procs[w]);
      hide Exclusive, IsDue;
      OnlyCarrier(s, w, key);
      OnlyCarrier(s', w, key);
      assert batch[..n + 1] == batch[..n] + [batch[n]];
      assert s'.copies[..|s'.copies| - 1] == s.copies;
    }
  }

  lemma RemoveOnce(s: State, w: nat, key: Bytes)
    requires w < |s.procs| && Exclusive(s) && Exclusive(CommandStep(s, w, Remove)) && StoreOk(s)
    requires Times(s.copies, key) == Expected(s, key)
    ensures Times(CommandStep(s, w, Remove).copies, key) == Expected(CommandStep(s, w, Remove), key)
  {
    var s' := CommandStep(s, w, Remove);
    if s.procs[w].Moving? && s.procs[w].copied == |s.procs[w].batch| {
      var batch := s.procs[w].batch;
      assert BatchOk(s, s.procs[w]);
      hide Exclusive, IsDue, Times;
      OnlyCarrier(s, w, key);
      OnlyCarrier(s', w, key);
      assert batch[..|batch|] == batch;
    }
  }

  lemma CopiedOnceStep(s: State, e: Event)
    requires Exclusive(s) && Timely(s, e) && Clean(s, e) && StoreOk(s) && CopiedOnce(s)
    ensures CopiedOnce(Step(s, e))
  {
    ExclusiveStep(s, e);
    hide Exclusive, StoreOk, Times, Expected, Timely, Clean, CopyStep;
    var s' := Step(s, e);
    forall key ensures Times(s'.copies, key) == Expected(s', key) {
      assert Times(s.copies, key) == Expected(s, key);
      if e.Add? {
        AddStep(s, e, key);
      } else if e.By? && e.w < |s.procs| && e.command.CopyOne? {
        CopyOnce(s, e.w, key);
      } else if e.By? && e.w < |s.procs| && e.command.Remove? {
        RemoveOnce(s, e.w, key);
      } else if e.By? && e.w >= |s.procs| {
      } else {
        forall v: nat ensures CarriedBy(s', v, key) <==> CarriedBy(s, v, key) {
          CarriedAfter(s, e, key, v);
        }
        UnchangedStores(s, e);
        NothingCopied(s, s', key);
      }
    }
  }

  lemma UnchangedStores(s: State, e: Event)
    requires !e.Add? && !(e.By? && (e.command.CopyOne? || e.command.Remove?))
    ensures Step(s, e).copies == s.copies && Step(s, e).added == s.added && Step(s, e).delayed == s.delayed
  {
    hide Decode, DueReply;
  }

  /**
   * In a timely run without a failure between first copy and removal, every member is copied at most once: exactly
   * once when it has left the delayed set, and not at all while it is there, unless its mover is between the two.
   */
  lemma {:induction false} EachCopiedOnce(es: seq<Event>)
    requires TimelyRun(es) && CleanRun(es)
    ensures StoreOk(Run(es)) && CopiedOnce(Run(es))
  {
    hide Exclusive, Timely, Clean, Step, StoreOk, CopiedOnce;
    if es == [] {
      NothingYet();
    } else {
      var front := es[..|es| - 1];
      RunDropsLast(es);
      EachCopiedOnce(front);
      AtMostOneHolder(front);
      StoreStep(Run(front), es[|es| - 1]);
      CopiedOnceStep(Run(front), es[|es| - 1]);
    }
  }

  lemma NothingYet()
    ensures StoreOk(INIT) && CopiedOnce(INIT)
  {
  }

  // ----- no message moves early -----

  /** Members keep the score they were added with, and a batch was due when it was read. */
  ghost predicate ScoresOk(s: State) {
    && (forall k | k in s.delayed :: k in s.added && s.delayed[k] == s.added[k])
    && (forall w | 0 <= w < |s.procs| :: BatchWasDue(s, s.procs[w]))
  }

  predicate BatchWasDue(s: State, p: Proc) {
    p.Moving? ==> forall i | 0 <= i < |p.batch| :: p.batch[i] in s.added && IsDue(s.now, s.added[p.batch[i]])
  }

  /** A copy names the score its member was added with, and is made when the second of that score is over. */
  predicate CopyOk(added: map<Bytes, nat>, c: Copy) {
    c.key in added && c.score == added[c.key] && c.time >= 1000 * (c.score + 1)
  }

  lemma WasDueAfter(s: State, e: Event, v: nat)
    requires ScoresOk(s) && v < |Step(s, e).procs|
    ensures BatchWasDue(Step(s, e), Step(s, e).procs[v])
  {
    hide Decode;
    assert v < |s.procs| ==> BatchWasDue(s, s.procs[v]);
  }

  lemma ScoresStep(s: State, e: Event)
    requires ScoresOk(s)
    ensures ScoresOk(Step(s, e))
    ensures forall k | k in s.added :: k in Step(s, e).added && Step(s, e).added[k] == s.added[k]
  {
    forall v | 0 <= v < |Step(s, e).procs| ensures BatchWasDue(Step(s, e), Step(s, e).procs[v]) {
      WasDueAfter(s, e, v);
    }
    hide Decode, BatchWasDue, DueReply;
  }

  lemma CopiesAfter(s: State, e: Event)
    requires ScoresOk(s)
    ensures var s' := Step(s, e);
            s'.copies == s.copies || exists c: Copy :: s'.copies == s.copies + [c] && CopyOk(s'.added, c)
  {
    hide Decode, DueReply;
    if e.By? && e.w < |s.procs| && e.command.CopyOne? && s.procs[e.w].Moving? {
      assert BatchWasDue(s, s.procs[e.w]);
      var n := s.procs[e.w].copied;
      if n < |s.procs[e.w].batch| {
        var k := s.procs[e.w].batch[n];
        assert Step(s, e).copies == s.copies + [Copy(k, s.added[k], s.now)];
      }
    }
  }

  /**
   * No message moves early, in any run: every copy, also one by a mover whose lock has long expired, is made when
   * the second of the score the message was added with is over.
   */
  lemma {:induction false} NothingMovesEarly(es: seq<Event>)
    ensures ScoresOk(Run(es))
    ensures forall i | 0 <= i < |Run(es).copies| :: CopyOk(Run(es).added, Run(es).copies[i])
  {
    hide ScoresOk, Step;
    if es == [] {
      assert ScoresOk(INIT) by { NoScores(); }
    } else {
      var front := es[..|es| - 1];
      NothingMovesEarly(front);
      ScoresStep(Run(front), es[|es| - 1]);
      CopiesAfter(Run(front), es[|es| - 1]);
    }
  }

  lemma NoScores()
    ensures ScoresOk(INIT)
  {
  }

  // ----- expiry, and what happens after it -----

  lemma {:induction false} LockNeverOutlasts(es: seq<Event>)
    ensures Run(es).lock.Some? ==> Run(es).lock.value <= Run(es).now + LOCK_MS
  {
    hide Decode, DueReply;
    if es != [] { LockNeverOutlasts(es[..|es| - 1]); }
  }

  /** Whatever failed, five seconds later an idle worker that tries gets the lock. */
  lemma ExpiryLetsOthersIn(es: seq<Event>, v: nat)
    requires v < |Run(es).procs| && Run(es).procs[v] == Idle
    ensures var s := Step(Step(Run(es), Tick(LOCK_MS)), By(v, TrySet));
            s.procs[v] == Locked(s.now) && s.lock == Some(s.now + LOCK_MS)
  {
    hide Run;
    LockNeverOutlasts(es);
  }

  /** Timeliness is needed: as soon as time takes a holder to its deadline, another worker can join it. */
  lemma {:induction false} ExclusionNeedsTimeliness(es: seq<Event>, ms: nat, v: nat)
    requires TimelyRun(es) && v < |Run(es).procs| && Run(es).procs[v] == Idle
    ensures var s := Step(Step(Run(es), Tick(ms)), By(v, TrySet));
            !Timely(Run(es), Tick(ms)) ==> exists w :: w != v && Holds(s, w) && Holds(s, v)
  {
    hide Run, TimelyRun;
    AtMostOneHolder(es);
    var s0 := Run(es);
    if !Timely(s0, Tick(ms)) {
      var w :| 0 <= w < |s0.procs| && Holds(s0, w) && s0.now + ms >= s0.procs[w].at + LOCK_MS;
      assert Owns(s0, w);
      var s := Step(Step(s0, Tick(ms)), By(v, TrySet));
      assert w != v && Holds(s, w) && Holds(s, v);
    }
  }

  lemma RunThen(es: seq<Event>, e: Event) returns (more: seq<Event>)
    ensures more == es + [e] && Run(more) == Step(Run(es), e)
  {
    more := es + [e];
    assert more[..|more| - 1] == es;
  }

  // ----- a failure after the first copy -----

  /** Some of the due keys, `key` among them: all of them, or as many as allowed. */
  lemma Pick(due: set<Bytes>, key: Bytes, n: nat) returns (batch: seq<Bytes>)
    requires key in due && n > 0
    ensures |batch| <= n && NoDup(batch) && key in batch && (forall k | k in batch :: k in due)
    ensures |batch| < n ==> forall k | k in due :: k in batch
    decreases n
  {
    if n == 1 || due == {key} {
      batch := [key];
    } else {
      assert due - {key} != {} by { assert due == (due - {key}) + {key}; }
      var other :| other in due - {key};
      var rest := Pick(due - {other}, key, n - 1);
      batch := rest + [other];
      assert other !in rest;
    }
  }

  lemma DueReplyWith(s: State, key: Bytes) returns (batch: seq<Bytes>)
    requires key in s.delayed && IsDue(s.now, s.delayed[key])
    ensures DueReply(s, batch) && key in batch
  {
    var due := set k | k in s.delayed && IsDue(s.now, s.delayed[k]);
    batch := Pick(due, key, MOVE_BATCH);
    forall i | 0 <= i < |batch| ensures batch[i] in s.delayed && IsDue(s.now, s.delayed[batch[i]]) {
      assert batch[i] in due;
    }
  }

  /** A mover copies what is left of its batch up to the `n`-th member, while all others stand still. */
  lemma {:induction false} CopyOn(es: seq<Event>, v: nat, at: nat, batch: seq<Bytes>, from: nat, n: nat, key: Bytes)
      returns (more: seq<Event>)
    requires v < |Run(es).procs| && Run(es).procs[v] == Moving(at, batch, from) && from <= n <= |batch| && NoDup(batch)
    ensures var (s, s') := (Run(es), Run(more));
            && es <= more && s'.procs == s.procs[v := Moving(at, batch, n)] && s'.now == s.now && s'.lock == s.lock
            && Times(s'.copies, key) == Times(s.copies, key) + if key in batch[from..n] then 1 else 0
    decreases n
  {
    hide Run;
    if n == from {
      more := es;
    } else {
      var before := CopyOn(es, v, at, batch, from, n - 1, key);
      more := RunThen(before, By(v, CopyOne));
      assert batch[from..n] == batch[from..n - 1] + [batch[n - 1]];
      assert Run(more).copies[..|Run(more).copies| - 1] == Run(before).copies;
    }
  }

  /** A worker that gets the lock can read a batch with the due member `key` in it, and copy all of it. */
  lemma {:induction false} JoinsAndCopies(es: seq<Event>, v: nat, key: Bytes)
      returns (joined: seq<Event>, copied: seq<Event>, batch: seq<Bytes>)
    requires v < |Run(es).procs| && Run(es).procs[v] == Idle && LockFree(Run(es))
    requires forall k | k in Run(es).delayed :: Decode(k).Ok?
    requires key in Run(es).delayed && IsDue(Run(es).now, Run(es).delayed[key])
    ensures joined == es + [By(v, TrySet)] && joined <= copied
    ensures var (s, s') := (Run(es), Run(copied));
            && s'.procs == s.procs[v := Moving(s.now, batch, |batch|)] && s'.now == s.now
            && Times(s'.copies, key) == Times(s.copies, key) + 1
  {
    hide Run, Decode, IsDue, Times, DueReply;
    joined := RunThen(es, By(v, TrySet));
    batch := DueReplyWith(Run(joined), key);
    var read := RunThen(joined, By(v, ReadDue(batch)));
    ReadsIt(Run(joined), v, batch);
    copied := CopyOn(read, v, Run(joined).now, batch, 0, |batch|, key);
    assert batch[0..|batch|] == batch;
  }

  /**
   * Clean runs are needed, too: when a mover fails between a copy and the removal, any worker can copy the member
   * again as soon as the lock has expired. By then the member has been copied twice.
   */
  lemma {:induction false} FailureCopiesAgain(es: seq<Event>, w: nat, key: Bytes, v: nat) returns (more: seq<Event>)
    requires TimelyRun(es) && CleanRun(es) && w < |Run(es).procs| && v < |Run(es).procs|
    requires Carries(Run(es).procs[w], key) && forall k | k in Run(es).delayed :: Decode(k).Ok?
    ensures es + [By(w, Fail)] <= more && Times(Run(more).copies, key) == 2
  {
    AtMostOneHolder(es);
    EachCopiedOnce(es);
    LockNeverOutlasts(es);
    CarriedOnce(Run(es), w, key);
    IdleAfterFail(Run(es), w, v);
    hide Run, Decode, TimelyRun, CleanRun, Exclusive, StoreOk, CopiedOnce, IsDue, Times;
    var failed := RunThen(es, By(w, Fail));
    var waited := RunThen(failed, Tick(LOCK_MS));
    StillDue(Run(es).now, Run(waited).now, Run(es).delayed[key]);
    var joined, batch;
    joined, more, batch := JoinsAndCopies(waited, v, key);
  }

  lemma CarriedOnce(s: State, w: nat, key: Bytes)
    requires StoreOk(s) && CopiedOnce(s) && w < |s.procs| && Carries(s.procs[w], key)
    ensures key in s.delayed && IsDue(s.now, s.delayed[key]) && Times(s.copies, key) == 1
  {
    hide Times, IsDue;
    assert BatchOk(s, s.procs[w]) && CarriedBy(s, w, key);
    assert Times(s.copies, key) == Expected(s, key);
  }

  /** Once the only holder has failed, every worker is idle. */
  lemma IdleAfterFail(s: State, w: nat, v: nat)
    requires Exclusive(s) && Holds(s, w) && v < |s.procs|
    ensures Step(s, By(w, Fail)).procs[v] == Idle
  {
    if v != w { OneHolder(s, v, w); }
  }

  lemma StillDue(now: nat, later: nat, score: nat)
    requires IsDue(now, score) && now <= later
    ensures IsDue(later, score)
  {
  }

  lemma ReadsIt(s: State, v: nat, batch: seq<Bytes>)
    requires v < |s.procs| && s.procs[v] == Locked(s.now) && DueReply(s, batch) && batch != []
    requires forall k | k in s.delayed :: Decode(k).Ok?
    ensures var s' := Step(s, By(v, ReadDue(batch)));
            && s'.procs == s.procs[v := Moving(s.now, batch, 0)] && s'.now == s.now && s'.lock == s.lock
            && s'.copies == s.copies && NoDup(batch)
  {
    hide Decode, IsDue;
  }

  // ----- a mover that is late -----

  /** Of a batch that a timely mover holds, what it has copied is copied once and the rest not at all. */
  lemma CopiedSoFar(s: State, w: nat, key: Bytes)
    requires Exclusive(s) && StoreOk(s) && CopiedOnce(s) && w < |s.procs| && s.procs[w].Moving?
    requires key in s.procs[w].batch
    ensures var p := s.procs[w];
            && key in s.delayed && IsDue(s.now, s.delayed[key]) && p.copied <= |p.batch| && NoDup(p.batch)
            && Times(s.copies, key) + (if key in p.batch[p.copied..] then 1 else 0) == 1
  {
    hide Times, IsDue, Exclusive;
    var p := s.procs[w];
    assert BatchOk(s, p);
    OnlyCarrier(s, w, key);
    assert Times(s.copies, key) == Expected(s, key);
    InOneHalf(p.batch, p.copied, key);
  }

  lemma InOneHalf<T>(s: seq<T>, n: nat, x: T)
    requires NoDup(s) && n <= |s| && x in s
    ensures x in s[..n] <==> x !in s[n..]
  {
    assert s == s[..n] + s[n..];
    var i :| 0 <= i < |s| && s[i] == x;
    forall j | 0 <= j < n && i >= n ensures s[..n][j] != x { assert s[j] != s[i]; }
    forall j | 0 <= j < |s| - n && i < n ensures s[n..][j] != x { assert s[n + j] != s[i]; }
  }

  /** When time takes a holder to its deadline the lock is free, and the holder is still at work. */
  lemma LateHolder(s: State, w: nat, v: nat, ms: nat)
    requires Exclusive(s) && Holds(s, w) && v < |s.procs| && s.procs[v] == Idle
    requires s.now + ms >= s.procs[w].at + LOCK_MS
    ensures var s' := Step(s, Tick(ms)); LockFree(s') && s' == s.(now := s.now + ms) && v != w
  {
    assert Owns(s, w);
  }

  /** By then the lock is free, the batch still due, and what the mover has copied of it is copied once. */
  lemma MoverAtItsDeadline(s: State, w: nat, key: Bytes, ms: nat, v: nat)
    requires Exclusive(s) && StoreOk(s) && CopiedOnce(s)
    requires w < |s.procs| && s.procs[w].Moving? && key in s.procs[w].batch && s.now + ms >= s.procs[w].at + LOCK_MS
    requires v < |s.procs| && s.procs[v] == Idle
    ensures LockFree(Step(s, Tick(ms))) && Step(s, Tick(ms)) == s.(now := s.now + ms) && v != w
    ensures key in s.delayed && IsDue(s.now + ms, s.delayed[key])
    ensures var p := s.procs[w];
            && p.copied <= |p.batch| && NoDup(p.batch)
            && Times(s.copies, key) + (if key in p.batch[p.copied..] then 1 else 0) == 1
  {
    hide Exclusive, StoreOk, CopiedOnce, IsDue, Times;
    CopiedSoFar(s, w, key);
    LateHolder(s, w, v, ms);
    StillDue(s.now, s.now + ms, s.delayed[key]);
  }

  /**
   * Timely runs are needed for single copies as for exclusion: from every timely and clean run, when time takes a mover
   * to its deadline, any idle worker can join it, and each member of the mover's batch can end up copied twice. The
   * late mover then removes its batch and deletes the lock of the other, which holds it still.
   */
  lemma {:induction false} LateMoverCopiesTwice(es: seq<Event>, w: nat, key: Bytes, ms: nat, v: nat)
      returns (copied: seq<Event>)
    requires TimelyRun(es) && CleanRun(es) && forall k | k in Run(es).delayed :: Decode(k).Ok?
    requires w < |Run(es).procs| && Run(es).procs[w].Moving? && key in Run(es).procs[w].batch
    requires Run(es).now + ms >= Run(es).procs[w].at + LOCK_MS
    requires v < |Run(es).procs| && Run(es).procs[v] == Idle
    ensures es + [Tick(ms), By(v, TrySet)] <= copied && Times(Run(copied).copies, key) == 2
    ensures var s := Run(copied + [By(w, Remove), By(w, Release)]); s.lock == None && Holds(s, v) && v != w
  {
    hide Run, Decode, TimelyRun, CleanRun, IsDue, Times;
    var joint := JoinsLateMover(es, w, key, ms, v);
    var p := Run(es).procs[w];
    copied := CopyOn(joint, w, p.at, p.batch, p.copied, |p.batch|, key);
    assert p.batch[p.copied..|p.batch|] == p.batch[p.copied..];
    LateEnd(copied, w, v);
  }

  /** The other worker joins and copies all it has read, while the late mover is where it was. */
  lemma {:induction false} JoinsLateMover(es: seq<Event>, w: nat, key: Bytes, ms: nat, v: nat)
      returns (joint: seq<Event>)
    requires TimelyRun(es) && CleanRun(es) && forall k | k in Run(es).delayed :: Decode(k).Ok?
    requires w < |Run(es).procs| && Run(es).procs[w].Moving? && key in Run(es).procs[w].batch
    requires Run(es).now + ms >= Run(es).procs[w].at + LOCK_MS
    requires v < |Run(es).procs| && Run(es).procs[v] == Idle
    ensures es + [Tick(ms), By(v, TrySet)] <= joint && v != w
    ensures var (p, s') := (Run(es).procs[w], Run(joint));
            && |s'.procs| == |Run(es).procs| && s'.procs[w] == p && Holds(s', v)
            && p.copied <= |p.batch| && NoDup(p.batch)
            && Times(s'.copies, key) + (if key in p.batch[p.copied..] then 1 else 0) == 2
  {
    AtMostOneHolder(es);
    EachCopiedOnce(es);
    hide Run, Decode, TimelyRun, CleanRun, Exclusive, StoreOk, CopiedOnce, IsDue, Times, LockFree;
    MoverAtItsDeadline(Run(es), w, key, ms, v);
    var waited := RunThen(es, Tick(ms));
    var joined, copy, batch := JoinsAndCopies(waited, v, key);
    assert es + [Tick(ms)] + [By(v, TrySet)] == es + [Tick(ms), By(v, TrySet)];
    joint := copy;
  }

  lemma LateEnd(es: seq<Event>, w: nat, v: nat)
    requires w < |Run(es).procs| && Run(es).procs[w].Moving? && Run(es).procs[w].copied == |Run(es).procs[w].batch|
    requires v != w && Holds(Run(es), v)
    ensures var s := Run(es + [By(w, Remove), By(w, Release)]); s.lock == None && Holds(s, v)
  {
    hide Run;
    var removed := RunThen(es, By(w, Remove));
    var released := RunThen(removed, By(w, Release));
    assert es + [By(w, Remove), By(w, Release)] == released;
  }

  /** A late holder that has only the DEL left deletes the other's lock at once. */
  lemma {:induction false} LateReleaseUnlocks(es: seq<Event>, w: nat, ms: nat, v: nat)
    requires TimelyRun(es) && w < |Run(es).procs| && Run(es).procs[w].Releasing?
    requires Run(es).now + ms >= Run(es).procs[w].at + LOCK_MS
    requires v < |Run(es).procs| && Run(es).procs[v] == Idle
    ensures var s := Run(es + [Tick(ms), By(v, TrySet), By(w, Release)]); s.lock == None && Holds(s, v) && v != w
  {
    AtMostOneHolder(es);
    LateHolder(Run(es), w, v, ms);
    hide Run, TimelyRun, Exclusive;
    var waited := RunThen(es, Tick(ms));
    var joined := RunThen(waited, By(v, TrySet));
    var released := RunThen(joined, By(w, Release));
    assert es + [Tick(ms), By(v, TrySet), By(w, Release)] == released;
  }

  /** In milliseconds a worker reads the members that the pass of the servers takes in seconds. */
  lemma DueAgrees(now: nat, score: nat)
    ensures var lookup := D.UnixTimestamp(now as real / 1000.0 - 1.0);
            IsDue(now, score) <==> lookup.Some? && score <= lookup.value
  {
    assert (now as real / 1000.0).Floor == now / 1000 by {
      var r := now % 1000;
      assert now as real / 1000.0 == (now / 1000) as real + r as real / 1000.0;
    }
    assert (now as real / 1000.0 - 1.0).Floor == now / 1000 - 1;
  }

  // ----- there are such runs -----

  lemma CleanThen(es: seq<Event>, e: Event) returns (more: seq<Event>)
    requires TimelyRun(es) && CleanRun(es) && Timely(Run(es), e) && Clean(Run(es), e)
    ensures more == es + [e] && Run(more) == Step(Run(es), e) && TimelyRun(more) && CleanRun(more)
  {
    hide Run, Timely, Clean, Step;
    more := RunThen(es, e);
    forall i | 0 <= i < |more| ensures Timely(Run(more[..i]), more[i]) && Clean(Run(more[..i]), more[i]) {
      assert i < |es| ==> more[..i] == es[..i] && more[i] == es[i];
      assert more[..|es|] == es;
    }
  }

  lemma NothingRun()
    ensures Run([]) == INIT && TimelyRun([]) && CleanRun([])
  {
  }

  /** For every key that decodes, a timely and clean run whose mover has copied it, with another worker idle. */
  lemma {:induction false} TimelyMover(key: Bytes) returns (es: seq<Event>)
    requires Decode(key).Ok?
    ensures TimelyRun(es) && CleanRun(es)
    ensures Run(es) == State(1000, Some(6000), map[key := 0], [Moving(1000, [key], 1), Idle],
                             map[key := 0], [Copy(key, 0, 1000)])
  {
    hide Run, Decode, TimelyRun, CleanRun;
    NothingRun();
    es := CleanThen([], Spawn);
    es := CleanThen(es, Spawn);
    es := CleanThen(es, Add(key, 0));
    es := CleanThen(es, Tick(1000));
    assert Run(es) == State(1000, None, map[key := 0], [Idle, Idle], map[key := 0], []);
    es := CleanThen(es, By(0, TrySet));
    assert Run(es) == State(1000, Some(6000), map[key := 0], [Locked(1000), Idle], map[key := 0], []);
    es := CleanThen(es, By(0, ReadDue([key])));
    assert Run(es) == State(1000, Some(6000), map[key := 0], [Moving(1000, [key], 0), Idle], map[key := 0], []);
    es := CleanThen(es, By(0, CopyOne));
  }
}

/**
 * The two views of the stream backend agree: an operation that nobody interrupts, command by command in the protocol,
 * has the effect of the sequential one.
 */
module StreamsAlone {
  import opened Bytes
  import opened Codec
  import opened RedisLists
  import opened Retry
  import opened DelayedSet
  import opened DelayedKeys
  import opened StreamsProtocol
  import E = StreamEntries
  import Q = StreamsQueue

  /** The stores of a protocol state, but for the delayed messages. */
  function StoresOf(s: State): Q.Streams {
    Q.Streams(s.stream, s.lastId, s.lastRead, s.pending, [], s.dlq, 0)
  }

  function Steps(c: Config, s: State, es: seq<Event>): State
    decreases |es|
  {
    if es == [] then s else Steps(c, Step(c, s, es[0]), es[1..])
  }

  lemma StepsCons(c: Config, s: State, e: Event, es: seq<Event>)
    ensures Steps(c, s, [e] + es) == Steps(c, Step(c, s, e), es)
  {
    assert ([e] + es)[1..] == es;
  }

  lemma NoSteps(c: Config, s: State)
    ensures Steps(c, s, []) == s
  {
  }

  lemma {:induction false} StepsConcat(c: Config, s: State, a: seq<Event>, b: seq<Event>)
    ensures Steps(c, s, a + b) == Steps(c, Steps(c, s, a), b)
    decreases |a|
  {
    if a == [] {
      assert a + b == b;
    } else {
      assert (a + b)[1..] == a[1..] + b;
      StepsConcat(c, Step(c, s, a[0]), a[1..], b);
    }
  }

  /** Between two states only process `w` has moved. */
  predicate Alone(s: State, s': State, w: nat, p: Proc) {
    w < |s.procs| && s'.procs == s.procs[w := p] && s'.clock == s.clock && s'.lastRead == s.lastRead
  }

  // ----- the loop of a sweep -----

  /** The entries at the limit. */
  function Dying(limit: Limit, batch: seq<Entry>): seq<Entry> {
    if batch == [] then []
    else (if AtLimit(limit, batch[0].count + 1) then [batch[0]] else []) + Dying(limit, batch[1..])
  }

  /** The visit of one entry below the limit. */
  lemma QueueAlone(c: Config, s: State, w: nat, todo: seq<Entry>, queued: seq<Entry>, done: seq<Entry>, at: nat)
    requires w < |s.procs| && s.procs[w] == Claimed(todo, queued, done, at) && todo != []
    requires Readable(todo[0]) && !AtLimit(c.limit, todo[0].count + 1)
    ensures Step(c, s, By(w, SweepVisit)) == Put(s, w, Claimed(todo[1..], queued + [todo[0]], done, at))
  {
    hide AtLimit, BodyOf;
  }

  /** The visit of one entry at the limit, and the push of its body. */
  lemma PushAlone(c: Config, s: State, w: nat, todo: seq<Entry>, queued: seq<Entry>, done: seq<Entry>, at: nat)
    requires w < |s.procs| && s.procs[w] == Claimed(todo, queued, done, at) && todo != []
    requires Readable(todo[0]) && AtLimit(c.limit, todo[0].count + 1) && BodyOf(s.stream, todo[0].id).Some?
    ensures var s1 := Step(c, s, By(w, SweepVisit));
            var s2 := Step(c, s1, By(w, SweepPush));
            && Alone(s, s2, w, Claimed(todo[1..], queued, done + [todo[0]], at))
            && s2.stream == s.stream && s2.lastId == s.lastId && s2.pending == s.pending
            && s2.dlq == s.dlq + [BodyOf(s.stream, todo[0].id).value]
  {
    hide AtLimit, BodyOf;
  }

  /** An entry the loop cannot get past ends the sweep. */
  lemma BreakAlone(c: Config, s: State, w: nat, todo: seq<Entry>, queued: seq<Entry>, done: seq<Entry>, at: nat)
    requires w < |s.procs| && s.procs[w] == Claimed(todo, queued, done, at) && todo != []
    requires !Q.Passes(c.limit, s.stream, todo[0])
    ensures var s1 := Step(c, s, By(w, SweepVisit));
            && Alone(s, s1, w, Idle) && s1.stream == s.stream && s1.lastId == s.lastId && s1.pending == s.pending
            && s1.dlq == s.dlq
  {
    hide AtLimit, BodyOf, Bodies;
  }

  lemma {:induction false} VisitAlone(c: Config, s: State, w: nat, todo: seq<Entry>, queued: seq<Entry>,
                                      done: seq<Entry>, at: nat)
      returns (es: seq<Event>)
    requires w < |s.procs| && s.procs[w] == Claimed(todo, queued, done, at)
    ensures var (bodies, finished) := Q.Visit(c.limit, s.stream, todo);
            var s' := Steps(c, s, es);
            && s'.stream == s.stream && s'.lastId == s.lastId && s'.pending == s.pending && s'.dlq == s.dlq + bodies
            && Alone(s, s', w, if finished
                               then Claimed([], queued + Q.Retried(c.limit, todo), done + Dying(c.limit, todo), at)
                               else Idle)
    decreases |todo|
  {
    hide AtLimit, BodyOf, Steps, Step, Readable;
    var visit := By(w, SweepVisit);
    if todo == [] {
      es := [];
      NoSteps(c, s);
      assert s.dlq + [] == s.dlq && queued + [] == queued && done + [] == done && s.procs[w := s.procs[w]] == s.procs;
    } else if !Q.Passes(c.limit, s.stream, todo[0]) {
      BreakAlone(c, s, w, todo, queued, done, at);
      StepsCons(c, s, visit, []);
      NoSteps(c, Step(c, s, visit));
      assert s.dlq + [] == s.dlq;
      es := [visit] + [];
    } else if !AtLimit(c.limit, todo[0].count + 1) {
      QueueAlone(c, s, w, todo, queued, done, at);
      var more := VisitAlone(c, Step(c, s, visit), w, todo[1..], queued + [todo[0]], done, at);
      StepsCons(c, s, visit, more);
      Regroup(queued, todo[0], Q.Retried(c.limit, todo[1..]));
      Nothing(done, Dying(c.limit, todo[1..]));
      es := [visit] + more;
    } else {
      var push := By(w, SweepPush);
      PushAlone(c, s, w, todo, queued, done, at);
      var s2 := Step(c, Step(c, s, visit), push);
      var more := VisitAlone(c, s2, w, todo[1..], queued, done + [todo[0]], at);
      StepsCons(c, Step(c, s, visit), push, more);
      StepsCons(c, s, visit, [push] + more);
      Regroup(done, todo[0], Dying(c.limit, todo[1..]));
      Regroup(s.dlq, BodyOf(s.stream, todo[0].id).value, Q.Visit(c.limit, s.stream, todo[1..]).0);
      Nothing(queued, Q.Retried(c.limit, todo[1..]));
      es := [visit] + ([push] + more);
    }
  }

  lemma Regroup<T>(a: seq<T>, x: T, b: seq<T>)
    ensures a + [x] + b == a + ([x] + b)
  {
  }

  lemma Nothing<T>(a: seq<T>, b: seq<T>)
    ensures a + ([] + b) == a + b
  {
    assert [] + b == b;
  }

  // ----- the pipelines of a sweep -----

  lemma {:induction false} AddAlone(c: Config, s: State, w: nat, queued: seq<Entry>, done: seq<Entry>, at: nat)
      returns (es: seq<Event>)
    requires w < |s.procs| && s.procs[w] == Claimed([], queued, done, at)
    ensures var s' := Steps(c, s, es);
            && s'.stream == s.stream + Q.Copies(s.lastId, queued) && s'.lastId == s.lastId + |queued|
            && s'.pending == s.pending && s'.dlq == s.dlq && Alone(s, s', w, Claimed([], [], done + queued, at))
    decreases |queued|
  {
    hide Steps, Step, Q.Copies;
    if queued == [] {
      es := [];
      NoSteps(c, s);
      NoCopies(s.lastId);
      assert s.stream + [] == s.stream && done + [] == done && s.procs[w := s.procs[w]] == s.procs;
    } else {
      var (add, e) := (By(w, SweepAdd), queued[0]);
      OneAddAlone(c, s, w, queued, done, at);
      var s1 := Step(c, s, add);
      var more := AddAlone(c, s1, w, queued[1..], done + [e], at);
      StepsCons(c, s, add, more);
      CopiesCons(s.lastId, queued);
      Regroup(s.stream, Entry(s.lastId + 1, e.payload, e.count + 1), Q.Copies(s.lastId + 1, queued[1..]));
      Regroup(done, e, queued[1..]);
      assert [e] + queued[1..] == queued;
      es := [add] + more;
    }
  }

  lemma OneAddAlone(c: Config, s: State, w: nat, queued: seq<Entry>, done: seq<Entry>, at: nat)
    requires w < |s.procs| && s.procs[w] == Claimed([], queued, done, at) && queued != []
    ensures var (s1, e) := (Step(c, s, By(w, SweepAdd)), queued[0]);
            && s1.stream == s.stream + [Entry(s.lastId + 1, e.payload, e.count + 1)] && s1.lastId == s.lastId + 1
            && s1.pending == s.pending && s1.dlq == s.dlq && Alone(s, s1, w, Claimed([], queued[1..], done + [e], at))
  {
  }

  lemma NoCopies(lastId: nat)
    ensures Q.Copies(lastId, []) == []
  {
  }

  lemma CopiesCons(lastId: nat, es: seq<Entry>)
    requires es != []
    ensures Q.Copies(lastId, es) == [Entry(lastId + 1, es[0].payload, es[0].count + 1)] + Q.Copies(lastId + 1, es[1..])
  {
  }

  /** XACK and XDEL of everything the sweep has copied. */
  lemma AcknowledgeAlone(c: Config, s: State, w: nat, done: seq<Entry>, at: nat) returns (es: seq<Event>)
    requires w < |s.procs| && s.procs[w] == Claimed([], [], done, at)
    ensures var s' := Steps(c, s, es);
            && s'.stream == XDel(s.stream, Ids(done)) && s'.pending == s.pending - IdSet(done)
            && s'.lastId == s.lastId && s'.dlq == s.dlq && Alone(s, s', w, Idle)
  {
    hide Steps, XDel, Ids, IdSet, GoneBodies;
    var (ack, delete) := (By(w, SweepAck), By(w, SweepDelete));
    var s1 := Step(c, s, ack);
    NoSteps(c, Step(c, s1, delete));
    StepsCons(c, s1, delete, []);
    StepsCons(c, s, ack, [delete] + []);
    es := [ack] + ([delete] + []);
  }

  /** The dead-lettered and the copied entries are the batch, in another order. */
  lemma {:induction false} Shared(limit: Limit, batch: seq<Entry>, e: Entry)
    ensures e in Dying(limit, batch) || e in Q.Retried(limit, batch) <==> e in batch
  {
    hide AtLimit;
    if batch != [] {
      assert batch == [batch[0]] + batch[1..];
      Shared(limit, batch[1..], e);
    }
  }

  lemma {:induction false} XDelByIds(stream: seq<Entry>, a: seq<nat>, b: seq<nat>)
    requires forall id :: id in a <==> id in b
    ensures XDel(stream, a) == XDel(stream, b)
    decreases |stream|
  {
    if stream != [] { XDelByIds(stream[1..], a, b); }
  }

  lemma SameIds(a: seq<Entry>, b: seq<Entry>)
    requires forall e :: e in a <==> e in b
    ensures IdSet(a) == IdSet(b) && forall id :: id in Ids(a) <==> id in Ids(b)
  {
    hide IdSet, Ids;
    forall id: nat ensures (id in IdSet(a) <==> id in IdSet(b)) && (id in Ids(a) <==> id in Ids(b)) {
      E.IdSetMember(a, id);
      E.IdSetMember(b, id);
      E.IdsMember(a, id);
      E.IdsMember(b, id);
    }
  }

  lemma AcknowledgedAll(limit: Limit, stream: seq<Entry>, batch: seq<Entry>)
    ensures var done := Dying(limit, batch) + Q.Retried(limit, batch);
            XDel(stream, Ids(done)) == XDel(stream, Ids(batch)) && IdSet(done) == IdSet(batch)
  {
    hide XDel, Ids, IdSet, Dying, Q.Retried;
    var done := Dying(limit, batch) + Q.Retried(limit, batch);
    forall e ensures e in done <==> e in batch { Shared(limit, batch, e); }
    SameIds(done, batch);
    XDelByIds(stream, Ids(done), Ids(batch));
  }

  // ----- a sweep -----

  lemma ClaimAlone(c: Config, s: State, w: nat, batch: seq<Entry>)
    requires w < |s.procs| && s.procs[w] == Idle && batch != [] && Claimable(c, s, batch, {})
    ensures Step(c, s, By(w, Claim(batch, {})))
         == Put(s.(pending := HandOut(s.pending, batch, s.clock)), w, Claimed(batch, [], [], s.clock))
  {
    hide HandOut;
    assert HandOut(s.pending, batch, s.clock) - {} == HandOut(s.pending, batch, s.clock);
  }

  /** From the claim to the visits. */
  lemma ClaimAndVisit(c: Config, s: State, w: nat, batch: seq<Entry>) returns (es: seq<Event>)
    requires w < |s.procs| && s.procs[w] == Idle && batch != [] && Claimable(c, s, batch, {})
    ensures var (bodies, finished) := Q.Visit(c.limit, s.stream, batch);
            var s' := Steps(c, s, es);
            && s'.stream == s.stream && s'.lastId == s.lastId && s'.pending == HandOut(s.pending, batch, s.clock)
            && s'.dlq == s.dlq + bodies
            && Alone(s, s', w, if finished then Claimed([], Q.Retried(c.limit, batch), Dying(c.limit, batch), s.clock)
                               else Idle)
  {
    ClaimAlone(c, s, w, batch);
    hide Steps, Step, HandOut, Claimable, Q.Visit, Q.Retried, Dying;
    var claim := By(w, Claim(batch, {}));
    var visits := VisitAlone(c, Step(c, s, claim), w, batch, [], [], s.clock);
    StepsCons(c, s, claim, visits);
    assert [] + Q.Retried(c.limit, batch) == Q.Retried(c.limit, batch);
    assert [] + Dying(c.limit, batch) == Dying(c.limit, batch);
    es := [claim] + visits;
  }

  /** From the copies to the end. */
  lemma CopyAndEnd(c: Config, s: State, w: nat, batch: seq<Entry>, at: nat) returns (es: seq<Event>)
    requires w < |s.procs| && s.procs[w] == Claimed([], Q.Retried(c.limit, batch), Dying(c.limit, batch), at)
    ensures var (s', queued) := (Steps(c, s, es), Q.Retried(c.limit, batch));
            && s'.stream == XDel(s.stream + Q.Copies(s.lastId, queued), Ids(batch)) && s'.lastId == s.lastId + |queued|
            && s'.pending == s.pending - IdSet(batch) && s'.dlq == s.dlq && Alone(s, s', w, Idle)
  {
    hide Steps, Step, Q.Retried, Q.Copies, XDel, Ids, IdSet, Dying;
    var adds := AddAlone(c, s, w, Q.Retried(c.limit, batch), Dying(c.limit, batch), at);
    var s1 := Steps(c, s, adds);
    var ends := AcknowledgeAlone(c, s1, w, Dying(c.limit, batch) + Q.Retried(c.limit, batch), at);
    AcknowledgedAll(c.limit, s1.stream, batch);
    StepsConcat(c, s, adds, ends);
    es := adds + ends;
  }

  /** A sweep that nobody interrupts has the effect of the sequential sweep of the batch it claims. */
  lemma SweepAlone(c: Config, s: State, w: nat, batch: seq<Entry>) returns (es: seq<Event>)
    requires w < |s.procs| && s.procs[w] == Idle && Q.ClaimReply(c, StoresOf(s), batch, s.clock)
    ensures var s' := Steps(c, s, es);
            StoresOf(s') == Q.SweepOp(c.limit, StoresOf(s), batch, s.clock).0 && Alone(s, s', w, Idle)
  {
    ClaimsAgree(c, s, batch);
    if batch == [] { return [By(w, Claim([], {}))]; }
    es := ClaimAndVisit(c, s, w, batch);
    hide Steps, Step, HandOut, Claimable, Q.Visit, Q.Retried, Q.Copies, XDel, Ids, IdSet, Dying;
    if Q.Visit(c.limit, s.stream, batch).1 {
      var rest := CopyAndEnd(c, Steps(c, s, es), w, batch, s.clock);
      StepsConcat(c, s, es, rest);
      es := es + rest;
    }
  }

  // ----- a redrive -----

  /** The pipeline of a round. */
  lemma {:induction false} ReAddAlone(c: Config, s: State, w: nat, readded: seq<Bytes>, rest: seq<Bytes>)
      returns (es: seq<Event>)
    requires w < |s.procs| && s.procs[w] == RedriveAdding(readded, rest)
    ensures var s' := Steps(c, s, es);
            && s'.stream == s.stream + Q.NewEntries(s.lastId, rest) && s'.lastId == s.lastId + |rest|
            && s'.pending == s.pending && s'.dlq == s.dlq && Alone(s, s', w, RedriveRemoving(readded + rest))
    decreases |rest|
  {
    hide Steps, Step, Q.NewEntries;
    if rest == [] {
      var turn := By(w, RedriveTurn);
      TurnAlone(c, s, w, readded);
      StepsCons(c, s, turn, []);
      NoSteps(c, Step(c, s, turn));
      NoEntries(s.lastId);
      assert s.stream + [] == s.stream && readded + [] == readded;
      es := [turn] + [];
    } else {
      var add := By(w, RedriveAdd);
      OneReAddAlone(c, s, w, readded, rest);
      var more := ReAddAlone(c, Step(c, s, add), w, readded + [rest[0]], rest[1..]);
      StepsCons(c, s, add, more);
      EntriesCons(s.lastId, rest);
      Regroup(s.stream, Entry(s.lastId + 1, rest[0], 0), Q.NewEntries(s.lastId + 1, rest[1..]));
      Regroup(readded, rest[0], rest[1..]);
      assert [rest[0]] + rest[1..] == rest;
      es := [add] + more;
    }
  }

  lemma TurnAlone(c: Config, s: State, w: nat, readded: seq<Bytes>)
    requires w < |s.procs| && s.procs[w] == RedriveAdding(readded, [])
    ensures Step(c, s, By(w, RedriveTurn)) == Put(s, w, RedriveRemoving(readded))
  {
  }

  lemma OneReAddAlone(c: Config, s: State, w: nat, readded: seq<Bytes>, rest: seq<Bytes>)
    requires w < |s.procs| && s.procs[w] == RedriveAdding(readded, rest) && rest != []
    ensures Step(c, s, By(w, RedriveAdd))
         == Put(XAdd(s, rest[0], 0), w, RedriveAdding(readded + [rest[0]], rest[1..]))
  {
  }

  lemma NoEntries(lastId: nat)
    ensures Q.NewEntries(lastId, []) == []
  {
  }

  lemma EntriesCons(lastId: nat, bodies: seq<Bytes>)
    requires bodies != []
    ensures Q.NewEntries(lastId, bodies) == [Entry(lastId + 1, bodies[0], 0)] + Q.NewEntries(lastId + 1, bodies[1..])
  {
  }

  /** The removals of a round, and the turn to the next one. */
  lemma {:induction false} RemovalsAlone(c: Config, s: State, w: nat, bodies: seq<Bytes>, rest: seq<Bytes>)
      returns (es: seq<Event>)
    requires w < |s.procs| && s.procs[w] == RedriveRemoving(bodies) && s.dlq == bodies + rest
    ensures var s' := Steps(c, s, es);
            && s'.dlq == rest && s'.stream == s.stream && s'.lastId == s.lastId && s'.pending == s.pending
            && Alone(s, s', w, Idle)
    decreases |bodies|
  {
    hide Steps;
    var remove := By(w, RedriveRemove);
    var s1 := Step(c, s, remove);
    if bodies == [] {
      NoSteps(c, s1);
      StepsCons(c, s, remove, []);
      es := [remove] + [];
    } else {
      assert (bodies + rest)[1..] == bodies[1..] + rest;
      var more := RemovalsAlone(c, s1, w, bodies[1..], rest);
      StepsCons(c, s, remove, more);
      es := [remove] + more;
    }
  }

  lemma RoundAlone(c: Config, s: State, w: nat) returns (es: seq<Event>)
    requires c.limit.Some? && w < |s.procs| && s.procs[w] == Idle && s.dlq != []
    ensures var (s', batch) := (Steps(c, s, es), FirstOf(s.dlq, REDRIVE_BATCH));
            && s.dlq == batch + s'.dlq && StoresOf(s') == Q.AddOp(StoresOf(s), batch).(dlq := s'.dlq)
            && Alone(s, s', w, Idle)
  {
    hide Steps, Step, Q.NewEntries, FirstOf;
    var batch := FirstOf(s.dlq, REDRIVE_BATCH);
    var rest := RestOf(s.dlq, REDRIVE_BATCH);
    var read := By(w, RedriveRead);
    var s1 := Step(c, s, read);
    RedriveReads(c, s, w);
    var adds := ReAddAlone(c, s1, w, [], batch);
    var s2 := Steps(c, s1, adds);
    assert [] + batch == batch;
    var removals := RemovalsAlone(c, s2, w, batch, rest);
    StepsConcat(c, s1, adds, removals);
    StepsCons(c, s, read, adds + removals);
    es := [read] + (adds + removals);
  }

  lemma RedriveReads(c: Config, s: State, w: nat)
    requires c.limit.Some? && w < |s.procs| && s.procs[w] == Idle && s.dlq != []
    ensures Step(c, s, By(w, RedriveRead)) == Put(s, w, RedriveAdding([], FirstOf(s.dlq, REDRIVE_BATCH)))
  {
  }

  /** A redrive that nobody interrupts, through all its rounds. */
  lemma {:induction false} RedriveAlone(c: Config, s: State, w: nat) returns (es: seq<Event>)
    requires c.limit.Some? && w < |s.procs| && s.procs[w] == Idle
    ensures var s' := Steps(c, s, es); StoresOf(s') == Q.RedriveOp(StoresOf(s)) && Alone(s, s', w, Idle)
    decreases |s.dlq|
  {
    hide Steps, Step, Q.NewEntries;
    if s.dlq == [] {
      es := [];
      NoSteps(c, s);
      Q.RedriveNothing(StoresOf(s));
      assert s.procs[w := s.procs[w]] == s.procs;
    } else {
      var batch := FirstOf(s.dlq, REDRIVE_BATCH);
      var round := RoundAlone(c, s, w);
      var s1 := Steps(c, s, round);
      var more := RedriveAlone(c, s1, w);
      StepsConcat(c, s, round, more);
      Q.RedriveBatches(StoresOf(s), batch, s1.dlq);
      es := round + more;
    }
  }

  // ----- the mover -----

  /** The pipeline of a pass. */
  lemma {:induction false} MoveAddsAlone(c: Config, s: State, w: nat, added: seq<Key>, next: seq<Key>)
      returns (es: seq<Event>)
    requires w < |s.procs| && s.procs[w] == MoveAdding(added, next)
    ensures var s' := Steps(c, s, es);
            && s'.stream == s.stream + Q.NewEntries(s.lastId, PayloadSeq(next)) && s'.lastId == s.lastId + |next|
            && s'.pending == s.pending && s'.dlq == s.dlq && s'.delayed == s.delayed
            && Alone(s, s', w, MoveAdding(added + next, []))
    decreases |next|
  {
    hide Steps, Step, Q.NewEntries, PayloadOf, PayloadSeq;
    if next == [] {
      assert PayloadSeq(next) == [];
      es := [];
      NoSteps(c, s);
      NoEntries(s.lastId);
      assert s.stream + [] == s.stream && added + [] == added && s.procs[w := s.procs[w]] == s.procs;
    } else {
      var add := By(w, MoveAdd);
      OneMoveAdd(c, s, w, added, next);
      var more := MoveAddsAlone(c, Step(c, s, add), w, added + [next[0]], next[1..]);
      StepsCons(c, s, add, more);
      BodiesCons(s.lastId, next);
      Regroup(s.stream, Entry(s.lastId + 1, PayloadOf(next[0]), 0), Q.NewEntries(s.lastId + 1, PayloadSeq(next[1..])));
      Regroup(added, next[0], next[1..]);
      assert [next[0]] + next[1..] == next;
      es := [add] + more;
    }
  }

  lemma BodiesCons(lastId: nat, next: seq<Key>)
    requires next != []
    ensures Q.NewEntries(lastId, PayloadSeq(next))
         == [Entry(lastId + 1, PayloadOf(next[0]), 0)] + Q.NewEntries(lastId + 1, PayloadSeq(next[1..]))
  {
    hide PayloadOf, Q.NewEntries;
    EntriesCons(lastId, PayloadSeq(next));
    assert PayloadSeq(next)[1..] == PayloadSeq(next[1..]);
  }

  lemma OneMoveAdd(c: Config, s: State, w: nat, added: seq<Key>, next: seq<Key>)
    requires w < |s.procs| && s.procs[w] == MoveAdding(added, next) && next != []
    ensures Step(c, s, By(w, MoveAdd))
         == Put(XAdd(s, PayloadOf(next[0]), 0), w, MoveAdding(added + [next[0]], next[1..]))
  {
    hide PayloadOf;
  }

  lemma MoveReads(c: Config, s: State, w: nat, members: seq<Key>)
    requires w < |s.procs| && s.procs[w] == Idle && MoveReply(s, members) && AllDecode(members)
    ensures Step(c, s, By(w, MoveRead(members))) == Put(s, w, MoveAdding([], members))
  {
    hide MoveReply, AllDecode;
  }

  lemma MoveRemoves(c: Config, s: State, w: nat, added: seq<Key>)
    requires w < |s.procs| && s.procs[w] == MoveAdding(added, [])
    ensures var s' := Step(c, s, By(w, MoveRemove));
            && s'.delayed == RemoveEach(s.delayed, added) && s'.stream == s.stream && s'.lastId == s.lastId
            && s'.pending == s.pending && s'.dlq == s.dlq && Alone(s, s', w, Idle)
  {
    hide RemoveEach, Missed;
  }

  lemma MoveCommands(c: Config, s: State, w: nat, members: seq<Key>) returns (es: seq<Event>)
    requires w < |s.procs| && s.procs[w] == Idle && MoveReply(s, members) && AllDecode(members)
    ensures var s' := Steps(c, s, es);
            && StoresOf(s') == Q.AddOp(StoresOf(s), PayloadSeq(members)) && s'.delayed == RemoveEach(s.delayed, members)
            && Alone(s, s', w, Idle)
  {
    hide Steps, Step, Q.NewEntries, PayloadSeq, AllDecode, MoveReply, RemoveEach;
    var (read, remove) := (By(w, MoveRead(members)), By(w, MoveRemove));
    MoveReads(c, s, w, members);
    var s1 := Step(c, s, read);
    var adds := MoveAddsAlone(c, s1, w, [], members);
    var s2 := Steps(c, s1, adds);
    assert [] + members == members;
    MoveRemoves(c, s2, w, members);
    NoSteps(c, Step(c, s2, remove));
    StepsCons(c, s2, remove, []);
    StepsConcat(c, s1, adds, [remove] + []);
    StepsCons(c, s, read, adds + ([remove] + []));
    es := [read] + (adds + ([remove] + []));
  }

  /** A pass of the mover over the sorted set `z` that the protocol keeps as its keys. */
  lemma MoveAlone(c: Config, s: State, z: seq<Member>, w: nat, second: nat) returns (es: seq<Event>)
    requires w < |s.procs| && s.procs[w] == Idle && s.delayed == Keys(z) && NoDup(Keys(z))
    ensures var (s', q') := (Steps(c, s, es), Q.MoveOp(StoresOf(s).(delayed := z), second).0);
            StoresOf(s') == q'.(delayed := []) && s'.delayed == Keys(q'.delayed) && Alone(s, s', w, Idle)
  {
    var batch := FirstOf(Due(z, second), MOVE_BATCH);
    KeysOfThePass(z, second);
    assert batch != [] ==> MoveReply(s, Keys(batch));
    NoSteps(c, s);
    assert s.procs[w := s.procs[w]] == s.procs;
    hide Due, Keys, PayloadSeq, Steps, RemoveEach, Q.NewEntries, FirstOf, AllDecode, MoveReply, NoDup;
    if batch == [] {
      es := [];
      EmptyMove(StoresOf(s).(delayed := z), second);
    } else if !AllDecode(Keys(batch)) {
      es := [];
    } else {
      es := MoveCommands(c, s, w, Keys(batch));
    }
  }

  lemma EmptyMove(q: Q.Streams, second: nat)
    requires FirstOf(Due(q.delayed, second), MOVE_BATCH) == []
    ensures Q.MoveOp(q, second).0 == q
  {
    assert q.stream + Q.NewEntries(q.lastId, []) == q.stream;
  }

  /**
   * What the reading commands go on with: a sweep with any reply that the sequential sweep may get, while ids of
   * deleted entries may cease to be pending, and a redrive with the first 51 dead letters.
   */
  lemma ReadsAlone(c: Config, s: State, w: nat, batch: seq<Entry>, gone: set<nat>)
    requires w < |s.procs| && s.procs[w] == Idle
    ensures Step(c, s, By(w, Claim(batch, gone)))
         == if Q.ClaimReply(c, StoresOf(s), batch, s.clock) && forall e | e in s.stream :: e.id !in gone
            then Put(s.(pending := HandOut(s.pending, batch, s.clock) - gone), w, Claiming(batch, s.clock)) else s
    ensures s.dlq != [] && c.limit.Some? ==>
              var n := if |s.dlq| <= 51 then |s.dlq| else 51;
              Step(c, s, By(w, RedriveRead)) == Put(s, w, RedriveAdding([], s.dlq[..n]))
  {
    ClaimsAgree(c, s, batch);
    GoneAgree(c, s, batch, gone);
    hide HandOut, Claimable, Q.ClaimReply;
    assert s.dlq[..|s.dlq|] == s.dlq;
  }

  lemma GoneAgree(c: Config, s: State, batch: seq<Entry>, gone: set<nat>)
    ensures Claimable(c, s, batch, gone)
       <==> Claimable(c, s, batch, {}) && forall e | e in s.stream :: e.id !in gone
  {
    hide NoDup, Ids, Idleness;
    if forall e | e in s.stream :: e.id !in gone {
      forall id | id in gone ensures !Present(s.stream, id) {
        assert forall i | 0 <= i < |s.stream| :: s.stream[i] in s.stream;
      }
    }
    if Claimable(c, s, batch, gone) {
      forall e | e in s.stream ensures e.id !in gone {
        var i :| 0 <= i < |s.stream| && s.stream[i] == e;
        assert Present(s.stream, e.id);
      }
    }
  }

  lemma ClaimsAgree(c: Config, s: State, batch: seq<Entry>)
    ensures Claimable(c, s, batch, {}) <==> Q.ClaimReply(c, StoresOf(s), batch, s.clock)
  {
    hide NoDup, Ids;
    if Claimable(c, s, batch, {}) {
      forall i | 0 <= i < |batch|
        ensures batch[i] in s.stream && batch[i].id in s.pending && s.clock >= s.pending[batch[i].id] + c.ackDeadline
      {
        assert Idleness(c, s, batch[i]);
      }
    }
  }

  // ----- sending and reading -----

  /** A send and a group read are single commands; an unreadable count only costs the deliveries. */
  lemma SendAndReadAlone(c: Config, s: State, payload: Bytes, max: nat)
    ensures StoresOf(Step(c, s, Send(payload))) == Q.AddOp(StoresOf(s), [payload])
    ensures var (s', es) := (Step(c, s, Read(max)), Unread(s.stream, s.lastRead, max));
            && StoresOf(s') == Q.ReadOp(StoresOf(s), max, s.clock)
            && s'.procs == s.procs + (if forall e | e in es :: e.count < USIZE_MAX then Deliveries(es) else [])
  {
    hide Unread, HandOut;
    assert Q.NewEntries(s.lastId, [payload]) == [Entry(s.lastId + 1, payload, 0)];
    var es := Unread(s.stream, s.lastRead, max);
    assert forall i | 0 <= i < |es| :: es[i] in es;
    if es == [] { assert s.procs + Deliveries(es) == s.procs; }
  }

  // ----- settling -----

  /** `ack` of a delivery. */
  lemma AckAlone(c: Config, s: State, w: nat, e: Entry)
    requires w < |s.procs| && s.procs[w] == Delivered(e, false)
    ensures var s' := Step(c, Step(c, s, By(w, Ack)), By(w, AckDelete(false)));
            StoresOf(s') == Q.AckOp(StoresOf(s), e.id) && Alone(s, s', w, Delivered(e, true))
  {
    hide XDel, Present;
  }

  lemma NackFetches(c: Config, s: State, w: nat, e: Entry)
    requires w < |s.procs| && s.procs[w] == Delivered(e, false)
    requires AtLimit(c.limit, e.count + 1) && BodyOf(s.stream, e.id).Some?
    ensures var body := BodyOf(s.stream, e.id).value;
            && Step(c, s, By(w, Nack)) == Put(s, w, NackFetched(e, false, body))
            && Step(c, Put(s, w, NackFetched(e, false, body)), By(w, NackPush))
               == Put(s.(dlq := s.dlq + [body]), w, NackPushed(e, false))
  {
    hide BodyOf, AtLimit;
  }

  lemma NackEnds(c: Config, s: State, w: nat, e: Entry)
    requires w < |s.procs| && s.procs[w] == NackPushed(e, false)
    ensures var s' := Step(c, Step(c, s, By(w, NackAck)), By(w, AckDelete(false)));
            StoresOf(s') == Q.AckOp(StoresOf(s), e.id) && Alone(s, s', w, Delivered(e, true))
  {
    hide XDel, GoneBody;
  }

  /** `nack` at the limit of a delivery whose entry is still there: look up, push, acknowledge, delete. */
  lemma NackAlone(c: Config, s: State, w: nat, e: Entry)
    requires w < |s.procs| && s.procs[w] == Delivered(e, false)
    requires AtLimit(c.limit, e.count + 1) && BodyOf(s.stream, e.id).Some?
    ensures var s2 := Step(c, Step(c, s, By(w, Nack)), By(w, NackPush));
            var s' := Step(c, Step(c, s2, By(w, NackAck)), By(w, AckDelete(false)));
            StoresOf(s') == Q.NackOp(c.limit, StoresOf(s), e.id, e.count + 1) && Alone(s, s', w, Delivered(e, true))
  {
    hide Step, XDel, BodyOf, AtLimit;
    NackFetches(c, s, w, e);
    NackEnds(c, Put(s.(dlq := s.dlq + [BodyOf(s.stream, e.id).value]), w, NackPushed(e, false)), w, e);
  }
}

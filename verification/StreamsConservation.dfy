/** No interleaving of the stream protocol loses a message, although XACK and XDEL are separate commands. */
module StreamsConservation {
  import opened Bytes
  import opened Codec
  import opened RedisLists
  import opened StreamsProtocol
  import E = StreamEntries

  /** An entry that will still be delivered or retried: not read by the group yet, or pending in it. */
  predicate Live(e: Entry, lastRead: nat, pending: map<nat, nat>) {
    e.id > lastRead || e.id in pending
  }

  /** The live copies of payload `x` in the stream. */
  function LiveCount(stream: seq<Entry>, lastRead: nat, pending: map<nat, nat>, x: Bytes): nat {
    if stream == [] then 0
    else (if Live(stream[0], lastRead, pending) && stream[0].payload == x then 1 else 0)
         + LiveCount(stream[1..], lastRead, pending, x)
  }

  function Owed(procs: seq<Proc>, x: Bytes): nat {
    if procs == [] then 0 else Owes(procs[0])[x] + Owed(procs[1..], x)
  }

  /** The recoverable copies of `x`: live in the stream, delayed, or dead-lettered. */
  function Held(s: State, x: Bytes): nat {
    LiveCount(s.stream, s.lastRead, s.pending, x) + Payloads(s.delayed)[x] + multiset(s.dlq)[x]
  }

  ghost predicate BalancedAt(s: State, x: Bytes) {
    s.history.sent[x] + Owed(s.procs, x) + s.history.surplus[x] == Held(s, x) + s.history.acked[x]
  }

  // ----- what the stream, the group and the processes know of each other -----

  ghost predicate GroupOk(s: State) {
    && Ascending(s.stream) && s.lastRead <= s.lastId
    && (forall i | 0 <= i < |s.stream| :: s.stream[i].id <= s.lastId)
    && (forall id | id in s.pending :: id <= s.lastRead)
  }

  /** An entry that was read: if the stream still has its id, it has this entry. */
  ghost predicate Known(s: State, e: Entry) {
    e.id <= s.lastRead && forall i | 0 <= i < |s.stream| :: s.stream[i].id == e.id ==> s.stream[i] == e
  }

  ghost predicate AllKnown(s: State, es: seq<Entry>) {
    forall i | 0 <= i < |es| :: Known(s, es[i])
  }

  ghost predicate Released(s: State, id: nat) {
    id <= s.lastRead && id !in s.pending
  }

  ghost predicate ProcOk(s: State, p: Proc) {
    match p
    case Delivered(e, _) => Known(s, e)
    case NackFetched(e, _, body) => Known(s, e) && body == e.payload
    case NackPushed(e, _) => Known(s, e)
    case AckDeleting(e) => Known(s, e) && Released(s, e.id)
    case Claimed(todo, queued, done, _) => AllKnown(s, todo) && AllKnown(s, queued) && AllKnown(s, done)
    case ClaimFetched(todo, queued, done, _, body) =>
      && AllKnown(s, todo) && AllKnown(s, queued) && AllKnown(s, done)
      && todo != [] && body == todo[0].payload
    case SweepDeleting(ids) => forall i | 0 <= i < |ids| :: Released(s, ids[i])
    case _ => true
  }

  ghost predicate ProcsOk(s: State) {
    forall w | 0 <= w < |s.procs| :: ProcOk(s, s.procs[w])
  }

  ghost predicate Inv(s: State) { GroupOk(s) && ProcsOk(s) }

  // ----- live copies -----

  lemma {:induction false} LiveFrame(stream: seq<Entry>, l: nat, p: map<nat, nat>, l': nat, p': map<nat, nat>, x: Bytes)
    requires forall i | 0 <= i < |stream| :: Live(stream[i], l, p) <==> Live(stream[i], l', p')
    ensures LiveCount(stream, l, p, x) == LiveCount(stream, l', p', x)
  {
    if stream != [] { LiveFrame(stream[1..], l, p, l', p', x); }
  }

  lemma {:induction false} LiveAppend(stream: seq<Entry>, e: Entry, l: nat, p: map<nat, nat>, x: Bytes)
    ensures LiveCount(stream + [e], l, p, x)
         == LiveCount(stream, l, p, x) + if Live(e, l, p) && e.payload == x then 1 else 0
  {
    if stream == [] {
      assert ([e])[1..] == [] && stream + [e] == [e];
    } else {
      assert (stream + [e])[1..] == stream[1..] + [e];
      LiveAppend(stream[1..], e, l, p, x);
    }
  }

  lemma {:induction false} LiveDelete(stream: seq<Entry>, ids: seq<nat>, l: nat, p: map<nat, nat>, x: Bytes)
    requires forall i | 0 <= i < |ids| :: ids[i] <= l && ids[i] !in p
    ensures LiveCount(XDel(stream, ids), l, p, x) == LiveCount(stream, l, p, x)
  {
    if stream != [] {
      LiveDelete(stream[1..], ids, l, p, x);
      var rest := XDel(stream[1..], ids);
      assert ([stream[0]] + rest)[1..] == rest;
    }
  }

  /** Acknowledging a read entry takes away its one live copy, if it still has one. */
  lemma {:induction false} LiveAck(stream: seq<Entry>, e: Entry, l: nat, p: map<nat, nat>, x: Bytes)
    requires Ascending(stream) && e.id <= l
    requires forall i | 0 <= i < |stream| :: stream[i].id == e.id ==> stream[i] == e
    ensures LiveCount(stream, l, p - {e.id}, x)
            + (if e.id in p && Present(stream, e.id) && e.payload == x then 1 else 0)
         == LiveCount(stream, l, p, x)
  {
    if stream != [] {
      var rest := stream[1..];
      LiveAck(rest, e, l, p, x);
      if stream[0].id == e.id {
        assert !Present(rest, e.id);
      } else {
        PresentTail(stream, e.id);
      }
    }
  }

  lemma PresentTail(stream: seq<Entry>, id: nat)
    requires stream != [] && stream[0].id != id
    ensures Present(stream, id) <==> Present(stream[1..], id)
  {
    if Present(stream, id) {
      var i :| 0 <= i < |stream| && stream[i].id == id;
      assert stream[1..][i - 1].id == id;
    }
    if Present(stream[1..], id) {
      var i :| 0 <= i < |stream[1..]| && stream[1..][i].id == id;
      assert stream[i + 1].id == id;
    }
  }

  /** What reading returns is unread, in order, and cut off at an id. */
  ghost predicate IsUnread(stream: seq<Entry>, last: nat, es: seq<Entry>) {
    && Ascending(es)
    && (forall e | e in es :: e in stream && e.id > last)
    && (es != [] ==> forall e | e in stream && e.id > last :: e in es <==> e.id <= es[|es| - 1].id)
  }

  lemma {:induction false} UnreadShape(stream: seq<Entry>, last: nat, max: nat)
    requires Ascending(stream)
    ensures IsUnread(stream, last, Unread(stream, last, max)) && |Unread(stream, last, max)| <= max
  {
    if stream == [] || max == 0 {
      NothingUnread(stream, last);
    } else {
      E.AscendingTail(stream);
      hide IsUnread, Ascending;
      if stream[0].id > last {
        UnreadShape(stream[1..], last, max - 1);
        UnreadCons(stream, last, Unread(stream[1..], last, max - 1));
      } else {
        UnreadShape(stream[1..], last, max);
        UnreadSkip(stream, last, Unread(stream[1..], last, max));
      }
    }
  }

  lemma NothingUnread(stream: seq<Entry>, last: nat)
    ensures IsUnread(stream, last, [])
  {
  }

  lemma UnreadSkip(stream: seq<Entry>, last: nat, es: seq<Entry>)
    requires stream != [] && stream[0].id <= last && IsUnread(stream[1..], last, es)
    ensures IsUnread(stream, last, es)
  {
    hide Ascending;
    assert forall e :: e in stream <==> e == stream[0] || e in stream[1..];
  }

  lemma UnreadCons(stream: seq<Entry>, last: nat, tail: seq<Entry>)
    requires stream != [] && stream[0].id > last && IsUnread(stream[1..], last, tail)
    requires forall e | e in stream[1..] :: e.id > stream[0].id
    ensures IsUnread(stream, last, [stream[0]] + tail)
  {
    var es := [stream[0]] + tail;
    assert forall e :: e in stream <==> e == stream[0] || e in stream[1..];
    assert forall e :: e in es <==> e == stream[0] || e in tail;
    forall i, j | 0 <= i < j < |es| ensures es[i].id < es[j].id {
      assert es[j] in tail && (i > 0 ==> es[i] == tail[i - 1] && es[j] == tail[j - 1]);
    }
    if tail != [] {
      assert tail[|tail| - 1] in tail && es[|es| - 1] == tail[|tail| - 1];
    }
  }

  // ----- the sums -----

  lemma {:induction false} OwedAfterPut(procs: seq<Proc>, w: nat, p: Proc, x: Bytes)
    requires w < |procs|
    ensures Owed(procs[w := p], x) + Owes(procs[w])[x] == Owed(procs, x) + Owes(p)[x]
  {
    hide Owes;
    if w == 0 {
      assert procs[w := p][1..] == procs[1..];
    } else {
      assert procs[w := p][1..] == procs[1..][w - 1 := p];
      OwedAfterPut(procs[1..], w - 1, p, x);
    }
  }

  lemma {:induction false} OwedAfterAppend(procs: seq<Proc>, more: seq<Proc>, x: Bytes)
    requires forall i | 0 <= i < |more| :: more[i].Idle? || more[i].Delivered?
    ensures Owed(procs + more, x) == Owed(procs, x)
  {
    if procs != [] {
      assert (procs + more)[1..] == procs[1..] + more;
      OwedAfterAppend(procs[1..], more, x);
    } else if more != [] {
      assert procs + more == more && more[1..] == [] + more[1..];
      OwedAfterAppend([], more[1..], x);
    }
  }

  lemma {:induction false} BodiesSnoc(es: seq<Entry>, e: Entry)
    ensures Bodies(es + [e]) == Bodies(es) + multiset{e.payload}
  {
    if es == [] {
      assert es + [e] == [e] && [e][1..] == [];
    } else {
      assert (es + [e])[1..] == es[1..] + [e];
      BodiesSnoc(es[1..], e);
    }
  }

  /** Balance is kept when what a process starts to owe, or leaves behind, matches the copies made and removed. */
  lemma Rebalance(s: State, s': State, w: nat, x: Bytes)
    requires BalancedAt(s, x) && w < |s.procs| == |s'.procs| && s'.procs == s.procs[w := s'.procs[w]]
    requires s'.history.sent == s.history.sent
    requires Owes(s'.procs[w])[x] + s'.history.surplus[x] + Held(s, x) + s.history.acked[x]
          == Owes(s.procs[w])[x] + s.history.surplus[x] + Held(s', x) + s'.history.acked[x]
    ensures BalancedAt(s', x)
  {
    hide Owes, Held;
    OwedAfterPut(s.procs, w, s'.procs[w], x);
  }

  // ----- the invariant -----

  /** How a command may change the stream and the group: new entries are unread, no old id becomes pending. */
  ghost predicate Evolves(s: State, s': State) {
    && s.lastRead <= s'.lastRead
    && (forall i | 0 <= i < |s'.stream| :: s'.stream[i] in s.stream || s'.stream[i].id > s.lastId)
    && (forall id | id in s'.pending && id <= s.lastRead :: id in s.pending)
    && (s'.lastRead > s.lastRead ==> s'.stream == s.stream)
  }

  lemma KnownFrame(s: State, s': State, e: Entry)
    requires GroupOk(s) && Evolves(s, s') && Known(s, e)
    ensures Known(s', e)
  {
    forall i | 0 <= i < |s'.stream| && s'.stream[i].id == e.id ensures s'.stream[i] == e {
      if s'.stream[i] in s.stream {
        var j :| 0 <= j < |s.stream| && s.stream[j] == s'.stream[i];
      }
    }
  }

  lemma AllKnownFrame(s: State, s': State, es: seq<Entry>)
    requires GroupOk(s) && Evolves(s, s') && AllKnown(s, es)
    ensures AllKnown(s', es)
  {
    hide GroupOk, Evolves, Known;
    forall i | 0 <= i < |es| ensures Known(s', es[i]) { KnownFrame(s, s', es[i]); }
  }

  lemma ProcFrame(s: State, s': State, p: Proc)
    requires GroupOk(s) && Evolves(s, s') && ProcOk(s, p)
    ensures ProcOk(s', p)
  {
    hide GroupOk, AllKnown, Known;
    match p
    case Delivered(e, _) => KnownFrame(s, s', e);
    case NackFetched(e, _, _) => KnownFrame(s, s', e);
    case NackPushed(e, _) => KnownFrame(s, s', e);
    case AckDeleting(e) => KnownFrame(s, s', e);
    case Claimed(todo, queued, done, _) =>
      AllKnownFrame(s, s', todo); AllKnownFrame(s, s', queued); AllKnownFrame(s, s', done);
    case ClaimFetched(todo, queued, done, _, _) =>
      AllKnownFrame(s, s', todo); AllKnownFrame(s, s', queued); AllKnownFrame(s, s', done);
    case _ =>
  }

  lemma InvAfter(s: State, s': State, w: nat)
    requires Inv(s) && Evolves(s, s') && GroupOk(s') && w < |s.procs| == |s'.procs|
    requires s'.procs == s.procs[w := s'.procs[w]] && ProcOk(s', s'.procs[w])
    ensures Inv(s')
  {
    hide GroupOk, Evolves, ProcOk;
    forall v | 0 <= v < |s'.procs| ensures ProcOk(s', s'.procs[v]) {
      if v != w { ProcFrame(s, s', s.procs[v]); }
    }
  }

  lemma XDelInv(s: State, s': State, ids: seq<nat>)
    requires GroupOk(s) && s'.stream == XDel(s.stream, ids) && s'.lastId == s.lastId
    requires s'.lastRead == s.lastRead && s'.pending == s.pending
    ensures GroupOk(s') && Evolves(s, s')
  {
    E.XDelMembers(s.stream, ids);
    forall i | 0 <= i < |s'.stream| ensures s'.stream[i] in s.stream && s'.stream[i].id <= s.lastId {
      assert s'.stream[i] in XDel(s.stream, ids);
    }
  }

  lemma XAddInv(s: State, s': State, payload: Bytes, count: nat)
    requires GroupOk(s) && s'.stream == XAdd(s, payload, count).stream && s'.lastId == s.lastId + 1
    requires s'.lastRead == s.lastRead && s'.pending == s.pending
    ensures GroupOk(s') && Evolves(s, s')
  {
  }

  /** Commands that leave the stream alone and make no id newly pending. */
  lemma PendingInv(s: State, s': State)
    requires GroupOk(s) && s'.stream == s.stream && s'.lastId == s.lastId && s'.lastRead == s.lastRead
    requires s'.pending.Keys <= s.pending.Keys
    ensures GroupOk(s') && Evolves(s, s')
  {
  }

  lemma BodyIs(s: State, e: Entry)
    requires Known(s, e) && BodyOf(s.stream, e.id).Some?
    ensures BodyOf(s.stream, e.id).value == e.payload
  {
    BodyHasAnEntry(s.stream, e.id);
  }

  lemma {:induction false} BodyHasAnEntry(stream: seq<Entry>, id: nat)
    requires BodyOf(stream, id).Some?
    ensures exists i :: 0 <= i < |stream| && stream[i].id == id && stream[i].payload == BodyOf(stream, id).value
  {
    if stream[0].id != id {
      BodyHasAnEntry(stream[1..], id);
      var rest := stream[1..];
      var i :| 0 <= i < |rest| && rest[i].id == id && rest[i].payload == BodyOf(rest, id).value;
      assert stream[i + 1] == stream[1..][i];
    }
  }

  lemma SettleInv(s: State, w: nat)
    requires Inv(s) && w < |s.procs|
    ensures Inv(AckStep(s, w)) && Inv(AckFailsStep(s, w)) && Inv(StopStep(s, w))
  {
    hide GroupOk, Evolves, AllKnown, GoneBody, Owes, Present;
    var p := s.procs[w];
    assert ProcOk(s, p);
    Settled(s, AckStep(s, w), w);
    Settled(s, AckFailsStep(s, w), w);
    Settled(s, StopStep(s, w), w);
  }

  lemma NackInv(c: Config, s: State, w: nat)
    requires Inv(s) && w < |s.procs|
    ensures Inv(NackStep(c, s, w)) && Inv(NackPushStep(s, w)) && Inv(NackAckStep(s, w)) && Inv(NackFailsStep(s, w))
  {
    hide GroupOk, Evolves, AllKnown, GoneBody, Owes, Present, BodyOf;
    var p := s.procs[w];
    assert ProcOk(s, p);
    if p.Delivered? && BodyOf(s.stream, p.entry.id).Some? { BodyIs(s, p.entry); }
    Settled(s, NackStep(c, s, w), w);
    Settled(s, NackPushStep(s, w), w);
    Settled(s, NackAckStep(s, w), w);
    Settled(s, NackFailsStep(s, w), w);
  }

  /** A step of one process that leaves the stream alone and at most takes ids out of the pending list. */
  lemma Settled(s: State, s': State, w: nat)
    requires Inv(s) && w < |s.procs| == |s'.procs| && s'.procs == s.procs[w := s'.procs[w]]
    requires s'.stream == s.stream && s'.lastId == s.lastId && s'.lastRead == s.lastRead
    requires s'.pending.Keys <= s.pending.Keys
    requires ProcOk(s', s'.procs[w]) || ProcOk(s, s'.procs[w])
    ensures Inv(s')
  {
    hide ProcOk, Evolves, GroupOk;
    PendingInv(s, s');
    if ProcOk(s, s'.procs[w]) { ProcFrame(s, s', s'.procs[w]); }
    InvAfter(s, s', w);
  }

  lemma ClaimInv(c: Config, s: State, w: nat, batch: seq<Entry>, gone: set<nat>)
    requires Inv(s) && w < |s.procs|
    ensures Inv(ClaimStep(c, s, w, batch, gone))
  {
    hide ProcOk, Evolves;
    if s.procs[w] == Idle && Claimable(c, s, batch, gone) {
      var s' := ClaimStep(c, s, w, batch, gone);
      ClaimedAreKnown(c, s, batch, gone);
      ClaimedProcOk(s, batch, s.clock);
      Settled(s, s', w);
    }
  }

  lemma ClaimedAreKnown(c: Config, s: State, batch: seq<Entry>, gone: set<nat>)
    requires GroupOk(s) && Claimable(c, s, batch, gone)
    ensures AllKnown(s, batch) && IdSet(batch) <= s.pending.Keys
  {
    forall i | 0 <= i < |batch| ensures Known(s, batch[i]) && batch[i].id in s.pending {
      assert Idleness(c, s, batch[i]);
      var j :| 0 <= j < |s.stream| && s.stream[j] == batch[i];
    }
  }

  lemma ClaimedProcOk(s: State, batch: seq<Entry>, at: nat)
    requires AllKnown(s, batch)
    ensures ProcOk(s, Claimed(batch, [], [], at))
  {
  }

  lemma SweepReadInv(c: Config, s: State, w: nat)
    requires Inv(s) && w < |s.procs|
    ensures Inv(SweepVisitStep(c, s, w)) && Inv(SweepPushStep(s, w))
  {
    hide GroupOk, Evolves, Known, Owes, BodyOf, ClaimStep;
    var p := s.procs[w];
    assert ProcOk(s, p);
    SettleInv(s, w);
    if p.Claimed? && p.todo != [] {
      assert Known(s, p.todo[0]);
      if BodyOf(s.stream, p.todo[0].id).Some? { BodyIs(s, p.todo[0]); }
      Settled(s, SweepVisitStep(c, s, w), w);
    }
    if p.ClaimFetched? { Settled(s, SweepPushStep(s, w), w); }
  }

  /** Steps that append to the stream, as part of a pipeline. */
  lemma Appended(s: State, s': State, w: nat, payload: Bytes, count: nat)
    requires Inv(s) && w < |s.procs| == |s'.procs| && s'.procs == s.procs[w := s'.procs[w]]
    requires s'.stream == XAdd(s, payload, count).stream && s'.lastId == s.lastId + 1
    requires s'.lastRead == s.lastRead && s'.pending == s.pending && ProcOk(s, s'.procs[w])
    ensures Inv(s')
  {
    hide ProcOk, Evolves, GroupOk;
    XAddInv(s, s', payload, count);
    ProcFrame(s, s', s'.procs[w]);
    InvAfter(s, s', w);
  }

  lemma AddInv(s: State, w: nat)
    requires Inv(s) && w < |s.procs|
    ensures Inv(SweepAddStep(s, w)) && Inv(MoveAddStep(s, w)) && Inv(RedriveAddStep(s, w))
  {
    hide GroupOk, Evolves, Known, PayloadOf;
    var p := s.procs[w];
    assert ProcOk(s, p);
    if p.Claimed? && p.todo == [] && p.queued != [] {
      assert Known(s, p.queued[0]);
      Appended(s, SweepAddStep(s, w), w, p.queued[0].payload, p.queued[0].count + 1);
    }
    if p.MoveAdding? && p.waiting != [] { Appended(s, MoveAddStep(s, w), w, PayloadOf(p.waiting[0]), 0); }
    if p.RedriveAdding? && p.rest != [] { Appended(s, RedriveAddStep(s, w), w, p.rest[0], 0); }
  }

  lemma SweepAckInv(s: State, w: nat)
    requires Inv(s) && w < |s.procs|
    ensures Inv(SweepAckStep(s, w))
  {
    hide GroupOk, Evolves, GoneBodies;
    var p := s.procs[w];
    assert ProcOk(s, p);
    if p.Claimed? && p.todo == [] && p.queued == [] {
      forall i | 0 <= i < |p.done| ensures p.done[i].id in IdSet(p.done) && p.done[i].id <= s.lastRead {
        assert Known(s, p.done[i]);
      }
      Settled(s, SweepAckStep(s, w), w);
    }
  }

  lemma DeleteInv(s: State, w: nat, replyLost: bool)
    requires Inv(s) && w < |s.procs|
    ensures Inv(AckDeleteStep(s, w, replyLost)) && Inv(SweepDeleteStep(s, w))
  {
    hide GroupOk, Evolves, Known, XDel;
    var p := s.procs[w];
    assert ProcOk(s, p);
    if p.AckDeleting? {
      var s' := AckDeleteStep(s, w, replyLost);
      XDelInv(s, s', [p.entry.id]);
      ProcFrame(s, s', Delivered(p.entry, !replyLost));
      InvAfter(s, s', w);
    }
    if p.SweepDeleting? {
      XDelInv(s, SweepDeleteStep(s, w), p.ids);
      InvAfter(s, SweepDeleteStep(s, w), w);
    }
  }

  lemma MoverInv(c: Config, s: State, w: nat, members: seq<Key>)
    requires Inv(s) && w < |s.procs|
    ensures Inv(MoveReadStep(s, w, members)) && Inv(MoveRemoveStep(s, w))
    ensures Inv(RedriveReadStep(c, s, w)) && Inv(RedriveTurnStep(s, w)) && Inv(RedriveRemoveStep(s, w))
  {
    hide GroupOk, Evolves, Known, RemoveFirst, RemoveEach, Missed, Decode, NoDup;
    assert ProcOk(s, s.procs[w]);
    Settled(s, MoveReadStep(s, w, members), w);
    Settled(s, MoveRemoveStep(s, w), w);
    Settled(s, RedriveReadStep(c, s, w), w);
    Settled(s, RedriveTurnStep(s, w), w);
    Settled(s, RedriveRemoveStep(s, w), w);
  }

  lemma ReadInv(s: State, max: nat)
    requires Inv(s)
    ensures Inv(ReadStep(s, max))
  {
    hide ProcOk, Unread, Readable;
    var es := Unread(s.stream, s.lastRead, max);
    UnreadShape(s.stream, s.lastRead, max);
    if es != [] {
      var s' := ReadStep(s, max);
      ReadGroup(s, s', es);
      forall v | 0 <= v < |s'.procs| ensures ProcOk(s', s'.procs[v]) {
        if v < |s.procs| {
          ProcFrame(s, s', s.procs[v]);
        } else {
          DeliveredOk(s', es, v - |s.procs|);
        }
      }
    }
  }

  lemma ReadGroup(s: State, s': State, es: seq<Entry>)
    requires GroupOk(s) && es != [] && IsUnread(s.stream, s.lastRead, es)
    requires s'.stream == s.stream && s'.lastId == s.lastId && s'.lastRead == es[|es| - 1].id
    requires s'.pending == HandOut(s.pending, es, s.clock)
    ensures GroupOk(s') && Evolves(s, s') && AllKnown(s', es)
  {
    var last := es[|es| - 1];
    assert last in es;
    var j :| 0 <= j < |s.stream| && s.stream[j] == last;
    forall i | 0 <= i < |es| ensures s.lastRead < es[i].id <= last.id && Known(s', es[i]) {
      assert es[i] in es;
      var k :| 0 <= k < |s.stream| && s.stream[k] == es[i];
    }
  }

  lemma DeliveredOk(s: State, es: seq<Entry>, i: nat)
    requires AllKnown(s, es) && i < |es|
    ensures ProcOk(s, Delivered(es[i], false))
  {
  }

  lemma {:induction false} StepInv(c: Config, s: State, e: Event)
    requires Inv(s)
    ensures Inv(Step(c, s, e))
  {
    hide ActionStep, ReadStep, ProcOk, GroupOk;
    match e
    case Tick(_) => ProcsFrame(s, s.(clock := s.clock + e.ms));
    case Spawn => ProcsFrame(s, s.(procs := s.procs + [Idle]));
    case Send(payload) => SendInv(s, payload, SendStep(s, payload));
    case SendScheduled(key, rank) => ProcsFrame(s, SendScheduledStep(s, key, rank));
    case Read(max) => ReadInv(s, max);
    case By(w, a) => if w < |s.procs| { ActionInv(c, s, w, a); }
  }

  lemma ProcsFrame(s: State, s': State)
    requires Inv(s) && (s'.procs == s.procs || s'.procs == s.procs + [Idle])
    requires s'.stream == s.stream && s'.lastId == s.lastId && s'.lastRead == s.lastRead && s'.pending == s.pending
    ensures Inv(s')
  {
    hide ProcOk, Evolves, GroupOk;
    PendingInv(s, s');
    forall v | 0 <= v < |s'.procs| ensures ProcOk(s', s'.procs[v]) {
      if v < |s.procs| { ProcFrame(s, s', s.procs[v]); } else { IdleOk(s'); }
    }
  }

  lemma IdleOk(s: State)
    ensures ProcOk(s, Idle)
  {
  }

  lemma SendInv(s: State, payload: Bytes, s': State)
    requires Inv(s) && s' == SendStep(s, payload)
    ensures Inv(s')
  {
    hide ProcOk, Evolves, GroupOk;
    XAddInv(s, s', payload, 0);
    forall v | 0 <= v < |s'.procs| ensures ProcOk(s', s'.procs[v]) { ProcFrame(s, s', s.procs[v]); }
  }

  lemma ActionInv(c: Config, s: State, w: nat, a: Action)
    requires Inv(s) && w < |s.procs|
    ensures Inv(ActionStep(c, s, w, a))
  {
    hide StopStep, AckStep, AckDeleteStep, AckFailsStep, NackStep, NackPushStep, NackAckStep, NackFailsStep,
         ClaimStep, SweepVisitStep, SweepPushStep, SweepAddStep, SweepAckStep, SweepDeleteStep, MoveReadStep,
         MoveAddStep, MoveRemoveStep, RedriveReadStep, RedriveAddStep, RedriveTurnStep, RedriveRemoveStep, Inv;
    match a
    case Stop => SettleInv(s, w);
    case Ack => SettleInv(s, w);
    case AckDelete(replyLost) => DeleteInv(s, w, replyLost);
    case AckFails => SettleInv(s, w);
    case Nack => NackInv(c, s, w);
    case NackPush => NackInv(c, s, w);
    case NackAck => NackInv(c, s, w);
    case NackFails => NackInv(c, s, w);
    case Claim(batch, gone) => ClaimInv(c, s, w, batch, gone);
    case SweepVisit => SweepReadInv(c, s, w);
    case SweepPush => SweepReadInv(c, s, w);
    case SweepAdd => AddInv(s, w);
    case SweepAck => SweepAckInv(s, w);
    case SweepDelete => DeleteInv(s, w, false);
    case MoveRead(members) => MoverInv(c, s, w, members);
    case MoveAdd => AddInv(s, w);
    case MoveRemove => MoverInv(c, s, w, []);
    case RedriveRead => MoverInv(c, s, w, []);
    case RedriveAdd => AddInv(s, w);
    case RedriveTurn => MoverInv(c, s, w, []);
    case RedriveRemove => MoverInv(c, s, w, []);
  }

  // ----- the balance -----

  /** A step that touches neither the stream, the group, the delayed set nor the dead-letter list. */
  lemma QuietKeeps(s: State, s': State, w: nat, x: Bytes)
    requires BalancedAt(s, x) && w < |s.procs| == |s'.procs| && s'.procs == s.procs[w := s'.procs[w]]
    requires s'.stream == s.stream && s'.lastRead == s.lastRead && s'.pending == s.pending
    requires s'.delayed == s.delayed && s'.dlq == s.dlq && s'.history.sent == s.history.sent
    requires s'.history.acked == s.history.acked
    requires Owes(s'.procs[w])[x] + s'.history.surplus[x] == Owes(s.procs[w])[x] + s.history.surplus[x]
    ensures BalancedAt(s', x)
  {
    hide Owes;
    Rebalance(s, s', w, x);
  }

  /** A step that appends one live copy and starts to owe it. */
  lemma CopyKeeps(s: State, s': State, w: nat, payload: Bytes, count: nat, x: Bytes)
    requires BalancedAt(s, x) && GroupOk(s) && w < |s.procs| == |s'.procs| && s'.procs == s.procs[w := s'.procs[w]]
    requires s'.stream == XAdd(s, payload, count).stream && s'.lastRead == s.lastRead && s'.pending == s.pending
    requires s'.delayed == s.delayed && s'.dlq == s.dlq && s'.history.sent == s.history.sent
    requires s'.history.acked == s.history.acked && s'.history.surplus == s.history.surplus
    requires Owes(s'.procs[w])[x] == Owes(s.procs[w])[x] + multiset{payload}[x]
    ensures BalancedAt(s', x)
  {
    hide Owes, GroupOk;
    UnreadIsAbove(s);
    LiveAppend(s.stream, Entry(s.lastId + 1, payload, count), s.lastRead, s.pending, x);
    Rebalance(s, s', w, x);
  }

  lemma UnreadIsAbove(s: State)
    requires GroupOk(s)
    ensures s.lastRead <= s.lastId
  {
  }

  /** A step that pushes one body on the dead-letter list and starts to owe it. */
  lemma DeadLetterKeeps(s: State, s': State, w: nat, body: Bytes, x: Bytes)
    requires BalancedAt(s, x) && w < |s.procs| == |s'.procs| && s'.procs == s.procs[w := s'.procs[w]]
    requires s'.stream == s.stream && s'.lastRead == s.lastRead && s'.pending == s.pending
    requires s'.delayed == s.delayed && s'.dlq == s.dlq + [body] && s'.history.sent == s.history.sent
    requires s'.history.acked == s.history.acked && s'.history.surplus == s.history.surplus
    requires Owes(s'.procs[w])[x] == Owes(s.procs[w])[x] + multiset{body}[x]
    ensures BalancedAt(s', x)
  {
    hide Owes;
    Rebalance(s, s', w, x);
  }

  lemma AckKeeps(s: State, w: nat, x: Bytes)
    requires Inv(s) && BalancedAt(s, x) && w < |s.procs|
    ensures BalancedAt(AckStep(s, w), x) && BalancedAt(NackAckStep(s, w), x)
  {
    hide LiveCount, Owed, Payloads, Present;
    var p := s.procs[w];
    assert ProcOk(s, p);
    if p.Delivered? && !p.settled {
      LiveAck(s.stream, p.entry, s.lastRead, s.pending, x);
      Rebalance(s, AckStep(s, w), w, x);
    } else if p.NackPushed? && p.settled {
      QuietKeeps(s, NackAckStep(s, w), w, x);
    } else if p.NackPushed? {
      LiveAck(s.stream, p.entry, s.lastRead, s.pending, x);
      Rebalance(s, NackAckStep(s, w), w, x);
    }
  }

  lemma DeleteKeeps(s: State, s': State, w: nat, ids: seq<nat>, x: Bytes)
    requires BalancedAt(s, x) && w < |s.procs| == |s'.procs| && s'.procs == s.procs[w := s'.procs[w]]
    requires forall i | 0 <= i < |ids| :: Released(s, ids[i])
    requires s'.stream == XDel(s.stream, ids) && s'.lastRead == s.lastRead && s'.pending == s.pending
    requires s'.delayed == s.delayed && s'.dlq == s.dlq && s'.history == s.history
    requires Owes(s'.procs[w]) == Owes(s.procs[w])
    ensures BalancedAt(s', x)
  {
    hide Owes;
    LiveDelete(s.stream, ids, s.lastRead, s.pending, x);
    Rebalance(s, s', w, x);
  }

  lemma DeletesKeep(s: State, w: nat, replyLost: bool, x: Bytes)
    requires Inv(s) && BalancedAt(s, x) && w < |s.procs|
    ensures BalancedAt(AckDeleteStep(s, w, replyLost), x) && BalancedAt(SweepDeleteStep(s, w), x)
  {
    hide BalancedAt, XDel, Known;
    var p := s.procs[w];
    assert ProcOk(s, p);
    if p.AckDeleting? { DeleteKeeps(s, AckDeleteStep(s, w, replyLost), w, [p.entry.id], x); }
    if p.SweepDeleting? { DeleteKeeps(s, SweepDeleteStep(s, w), w, p.ids, x); }
  }

  lemma NackKeeps(c: Config, s: State, w: nat, x: Bytes)
    requires Inv(s) && BalancedAt(s, x) && w < |s.procs|
    ensures BalancedAt(NackStep(c, s, w), x) && BalancedAt(NackPushStep(s, w), x)
  {
    hide BalancedAt, Known, BodyOf, Bodies, Payloads;
    var p := s.procs[w];
    assert ProcOk(s, p);
    QuietKeeps(s, NackStep(c, s, w), w, x);
    if p.NackFetched? { DeadLetterKeeps(s, NackPushStep(s, w), w, p.body, x); }
  }

  lemma StopKeeps(s: State, w: nat, x: Bytes)
    requires BalancedAt(s, x) && w < |s.procs|
    ensures BalancedAt(StopStep(s, w), x) && BalancedAt(NackFailsStep(s, w), x) && BalancedAt(AckFailsStep(s, w), x)
  {
    hide BalancedAt, Bodies, Payloads;
    QuietKeeps(s, StopStep(s, w), w, x);
    QuietKeeps(s, NackFailsStep(s, w), w, x);
    QuietKeeps(s, AckFailsStep(s, w), w, x);
  }

  lemma ClaimKeeps(c: Config, s: State, w: nat, batch: seq<Entry>, gone: set<nat>, x: Bytes)
    requires Inv(s) && BalancedAt(s, x) && w < |s.procs|
    ensures BalancedAt(ClaimStep(c, s, w, batch, gone), x)
  {
    hide LiveCount, Owed, Payloads, NoDup, Idleness;
    if s.procs[w] == Idle && Claimable(c, s, batch, gone) {
      var s' := ClaimStep(c, s, w, batch, gone);
      ClaimedAreKnown(c, s, batch, gone);
      forall i | 0 <= i < |s.stream|
        ensures Live(s.stream[i], s.lastRead, s.pending) <==> Live(s.stream[i], s.lastRead, s'.pending)
      {
        assert Present(s.stream, s.stream[i].id);
      }
      LiveFrame(s.stream, s.lastRead, s.pending, s.lastRead, s'.pending, x);
      Rebalance(s, s', w, x);
    }
  }

  lemma SweepVisitKeeps(c: Config, s: State, w: nat, x: Bytes)
    requires BalancedAt(s, x) && w < |s.procs|
    ensures BalancedAt(SweepVisitStep(c, s, w), x)
  {
    hide BalancedAt, BodyOf, Bodies, StopStep;
    StopKeeps(s, w, x);
    if s.procs[w].Claimed? && SweepVisitStep(c, s, w) != StopStep(s, w) {
      QuietKeeps(s, SweepVisitStep(c, s, w), w, x);
    }
  }

  lemma SweepPushKeeps(s: State, w: nat, x: Bytes)
    requires Inv(s) && BalancedAt(s, x) && w < |s.procs|
    ensures BalancedAt(SweepPushStep(s, w), x)
  {
    hide BalancedAt, AllKnown, Bodies, GroupOk;
    var p := s.procs[w];
    assert ProcOk(s, p);
    if p.ClaimFetched? {
      BodiesSnoc(p.done, p.todo[0]);
      DeadLetterKeeps(s, SweepPushStep(s, w), w, p.body, x);
    }
  }

  lemma SweepAddKeeps(s: State, w: nat, x: Bytes)
    requires Inv(s) && BalancedAt(s, x) && w < |s.procs|
    ensures BalancedAt(SweepAddStep(s, w), x)
  {
    hide BalancedAt, GroupOk, ProcsOk, Bodies;
    var p := s.procs[w];
    if p.Claimed? && p.todo == [] && p.queued != [] {
      BodiesSnoc(p.done, p.queued[0]);
      CopyKeeps(s, SweepAddStep(s, w), w, p.queued[0].payload, p.queued[0].count + 1, x);
    }
  }

  lemma AddKeeps(s: State, w: nat, x: Bytes)
    requires Inv(s) && BalancedAt(s, x) && w < |s.procs|
    ensures BalancedAt(MoveAddStep(s, w), x) && BalancedAt(RedriveAddStep(s, w), x)
  {
    hide BalancedAt, GroupOk, ProcsOk, PayloadOf, Payloads;
    var p := s.procs[w];
    if p.MoveAdding? && p.waiting != [] {
      PayloadsConcat(p.added, [p.waiting[0]]);
      PayloadsSingle(p.waiting[0]);
      CopyKeeps(s, MoveAddStep(s, w), w, PayloadOf(p.waiting[0]), 0, x);
    }
    RedriveAddKeeps(s, w, x);
  }

  lemma RedriveAddKeeps(s: State, w: nat, x: Bytes)
    requires Inv(s) && BalancedAt(s, x) && w < |s.procs|
    ensures BalancedAt(RedriveAddStep(s, w), x)
  {
    hide BalancedAt, GroupOk, ProcsOk;
    var p := s.procs[w];
    if p.RedriveAdding? && p.rest != [] { CopyKeeps(s, RedriveAddStep(s, w), w, p.rest[0], 0, x); }
  }

  lemma IdSetCons(es: seq<Entry>)
    requires es != []
    ensures IdSet(es) == {es[0].id} + IdSet(es[1..])
  {
    forall id ensures id in IdSet(es) <==> id == es[0].id || id in IdSet(es[1..]) {
      if id in IdSet(es) && id != es[0].id {
        var i :| 0 <= i < |es| && es[i].id == id;
        assert es[1..][i - 1].id == id;
      }
      if id in IdSet(es[1..]) {
        var i :| 0 <= i < |es[1..]| && es[1..][i].id == id;
        assert es[i + 1].id == id;
      }
    }
  }

  /** Acknowledging a batch takes away one live copy of each entry that still has one. */
  lemma {:induction false} LiveAckAll(s: State, es: seq<Entry>, x: Bytes)
    requires GroupOk(s) && AllKnown(s, es)
    ensures LiveCount(s.stream, s.lastRead, s.pending - IdSet(es), x) + Bodies(es)[x]
         == LiveCount(s.stream, s.lastRead, s.pending, x) + GoneBodies(s, es)[x]
    decreases |es|
  {
    hide LiveCount;
    if es == [] {
      assert s.pending - IdSet(es) == s.pending;
    } else {
      var s' := s.(pending := s.pending - {es[0].id});
      assert Known(s, es[0]);
      KnownRest(s, s', es);
      hide AllKnown, IdSet;
      LiveAckAll(s', es[1..], x);
      LiveAck(s.stream, es[0], s.lastRead, s.pending, x);
      IdSetCons(es);
      assert s'.pending - IdSet(es[1..]) == s.pending - IdSet(es);
    }
  }

  lemma KnownRest(s: State, s': State, es: seq<Entry>)
    requires AllKnown(s, es) && es != [] && s'.stream == s.stream && s'.lastRead == s.lastRead
    ensures AllKnown(s', es[1..])
  {
    forall i | 0 <= i < |es[1..]| ensures Known(s', es[1..][i]) { assert Known(s, es[i + 1]); }
  }

  lemma SweepAckKeeps(s: State, w: nat, x: Bytes)
    requires Inv(s) && BalancedAt(s, x) && w < |s.procs|
    ensures BalancedAt(SweepAckStep(s, w), x)
  {
    hide LiveCount, Owed, Payloads, GoneBodies, Bodies, AllKnown;
    var p := s.procs[w];
    assert ProcOk(s, p);
    if p.Claimed? && p.todo == [] && p.queued == [] {
      LiveAckAll(s, p.done, x);
      Rebalance(s, SweepAckStep(s, w), w, x);
    }
  }

  lemma MoverKeeps(c: Config, s: State, w: nat, members: seq<Key>, x: Bytes)
    requires BalancedAt(s, x) && w < |s.procs|
    ensures BalancedAt(MoveReadStep(s, w, members), x) && BalancedAt(RedriveReadStep(c, s, w), x)
    ensures BalancedAt(RedriveTurnStep(s, w), x)
  {
    hide BalancedAt, Decode, NoDup, PayloadOf, FirstOf, RemoveFirst;
    if MoveReadStep(s, w, members) != s { QuietKeeps(s, MoveReadStep(s, w, members), w, x); }
    if RedriveReadStep(c, s, w) != s { QuietKeeps(s, RedriveReadStep(c, s, w), w, x); }
    if RedriveTurnStep(s, w) != s { QuietKeeps(s, RedriveTurnStep(s, w), w, x); }
  }

  lemma MoveRemoveKeeps(s: State, w: nat, x: Bytes)
    requires BalancedAt(s, x) && w < |s.procs|
    ensures BalancedAt(MoveRemoveStep(s, w), x)
  {
    hide LiveCount, Owed, Payloads, Missed, RemoveEach;
    var p := s.procs[w];
    if p.MoveAdding? && p.waiting == [] {
      PayloadsRemoveEach(s.delayed, p.added);
      assert (Payloads(RemoveEach(s.delayed, p.added)) + Payloads(p.added))[x]
          == (Payloads(s.delayed) + Missed(s.delayed, p.added))[x];
      Rebalance(s, MoveRemoveStep(s, w), w, x);
    }
  }

  lemma RedriveRemoveKeeps(s: State, w: nat, x: Bytes)
    requires BalancedAt(s, x) && w < |s.procs|
    ensures BalancedAt(RedriveRemoveStep(s, w), x)
  {
    hide LiveCount, Owed, Payloads, RemoveFirst, BalancedAt;
    var p := s.procs[w];
    if p.RedriveRemoving? {
      if p.bodies == [] {
        Rebalance(s, RedriveRemoveStep(s, w), w, x);
      } else {
        var s' := RedriveRemoveStep(s, w);
        BodyRemoval(s.dlq, p.bodies, x);
        assert Owes(s'.procs[w]) == multiset(p.bodies[1..]);
        Rebalance(s, s', w, x);
      }
    }
  }

  lemma ReadKeeps(s: State, max: nat, x: Bytes)
    requires Inv(s) && BalancedAt(s, x)
    ensures BalancedAt(ReadStep(s, max), x)
  {
    hide LiveCount, Owed, Payloads, Unread, ProcsOk, Readable;
    var es := Unread(s.stream, s.lastRead, max);
    UnreadShape(s.stream, s.lastRead, max);
    if es != [] {
      var s' := ReadStep(s, max);
      forall i | 0 <= i < |s.stream|
        ensures Live(s.stream[i], s.lastRead, s.pending) <==> Live(s.stream[i], s'.lastRead, s'.pending)
      {
        ReadLiveness(s, es, s.stream[i]);
      }
      LiveFrame(s.stream, s.lastRead, s.pending, s'.lastRead, s'.pending, x);
      OwedAfterAppend(s.procs, s'.procs[|s.procs|..], x);
      assert s'.procs == s.procs + s'.procs[|s.procs|..];
    }
  }

  lemma ReadLiveness(s: State, es: seq<Entry>, e: Entry)
    requires GroupOk(s) && es != [] && IsUnread(s.stream, s.lastRead, es) && e in s.stream
    ensures Live(e, s.lastRead, s.pending) <==> Live(e, es[|es| - 1].id, HandOut(s.pending, es, s.clock))
  {
    assert es[|es| - 1] in es;
    if e in es {
      var i :| 0 <= i < |es| && es[i] == e;
      assert e.id in IdSet(es);
    } else if e.id in IdSet(es) {
      var i :| 0 <= i < |es| && es[i].id == e.id;
      assert es[i] in es;
    }
  }

  lemma SendKeeps(s: State, payload: Bytes, key: Key, rank: nat, x: Bytes)
    requires GroupOk(s) && BalancedAt(s, x)
    ensures BalancedAt(SendStep(s, payload), x) && BalancedAt(SendScheduledStep(s, key, rank), x)
  {
    hide LiveCount, Owed, PayloadOf, GroupOk, Payloads;
    UnreadIsAbove(s);
    LiveAppend(s.stream, Entry(s.lastId + 1, payload, 0), s.lastRead, s.pending, x);
    if rank <= |s.delayed| {
      var (a, b) := (s.delayed[..rank], s.delayed[rank..]);
      assert s.delayed == a + b;
      PayloadsConcat(a, b);
      PayloadsConcat(a + [key], b);
      PayloadsConcat(a, [key]);
      PayloadsSingle(key);
    }
  }

  lemma ActionKeeps(c: Config, s: State, w: nat, a: Action, x: Bytes)
    requires Inv(s) && BalancedAt(s, x) && w < |s.procs|
    ensures BalancedAt(ActionStep(c, s, w, a), x)
  {
    hide StopStep, AckStep, AckDeleteStep, AckFailsStep, NackStep, NackPushStep, NackAckStep, NackFailsStep,
         ClaimStep, SweepVisitStep, SweepPushStep, SweepAddStep, SweepAckStep, SweepDeleteStep, MoveReadStep,
         MoveAddStep, MoveRemoveStep, RedriveReadStep, RedriveAddStep, RedriveTurnStep, RedriveRemoveStep, Inv,
         BalancedAt;
    match a
    case Stop => StopKeeps(s, w, x);
    case Ack => AckKeeps(s, w, x);
    case AckDelete(replyLost) => DeletesKeep(s, w, replyLost, x);
    case AckFails => StopKeeps(s, w, x);
    case Nack => NackKeeps(c, s, w, x);
    case NackPush => NackKeeps(c, s, w, x);
    case NackAck => AckKeeps(s, w, x);
    case NackFails => StopKeeps(s, w, x);
    case Claim(batch, gone) => ClaimKeeps(c, s, w, batch, gone, x);
    case SweepVisit => SweepVisitKeeps(c, s, w, x);
    case SweepPush => SweepPushKeeps(s, w, x);
    case SweepAdd => SweepAddKeeps(s, w, x);
    case SweepAck => SweepAckKeeps(s, w, x);
    case SweepDelete => DeletesKeep(s, w, false, x);
    case MoveRead(members) => MoverKeeps(c, s, w, members, x);
    case MoveAdd => AddKeeps(s, w, x);
    case MoveRemove => MoveRemoveKeeps(s, w, x);
    case RedriveRead => MoverKeeps(c, s, w, [], x);
    case RedriveAdd => AddKeeps(s, w, x);
    case RedriveTurn => MoverKeeps(c, s, w, [], x);
    case RedriveRemove => RedriveRemoveKeeps(s, w, x);
  }

  lemma StepKeeps(c: Config, s: State, e: Event, x: Bytes)
    requires Inv(s) && BalancedAt(s, x)
    ensures BalancedAt(Step(c, s, e), x)
  {
    hide ActionStep, ReadStep, SendStep, SendScheduledStep, ProcsOk, GroupOk, Owes;
    match e
    case Tick(_) =>
    case Spawn => OwedAfterAppend(s.procs, [Idle], x);
    case Send(payload) => SendKeeps(s, payload, [], 0, x);
    case SendScheduled(key, rank) => SendKeeps(s, [], key, rank, x);
    case Read(max) => ReadKeeps(s, max, x);
    case By(w, a) => if w < |s.procs| { ActionKeeps(c, s, w, a, x); }
  }

  lemma {:induction false} RunInv(c: Config, es: seq<Event>)
    ensures Inv(Run(c, es))
  {
    hide Step, Inv;
    if es == [] {
      InitInv();
    } else {
      RunInv(c, es[..|es| - 1]);
      StepInv(c, Run(c, es[..|es| - 1]), es[|es| - 1]);
    }
  }

  lemma InitInv()
    ensures Inv(INIT)
  {
  }

  // ----- what it means for callers -----

  /**
   * Conservation over every run, for every payload: the recoverable copies and those removed by an ack are exactly
   * the sent ones, the copies made ahead of an XACK or removal still to come, and the copies whose original nobody
   * will remove any more.
   */
  lemma {:induction false} Conservation(c: Config, es: seq<Event>, x: Bytes)
    ensures var s := Run(c, es);
            s.history.sent[x] + Owed(s.procs, x) + s.history.surplus[x] == Held(s, x) + s.history.acked[x]
  {
    hide Step, Inv;
    if es != [] {
      Conservation(c, es[..|es| - 1], x);
      RunInv(c, es[..|es| - 1]);
      StepKeeps(c, Run(c, es[..|es| - 1]), es[|es| - 1], x);
    }
  }

  /**
   * No loss: a payload sent more often than acks removed it is delayed, dead-lettered, or in a stream entry that
   * is unread or pending.
   */
  lemma NoLoss(c: Config, es: seq<Event>, x: Bytes)
    ensures var s := Run(c, es);
            Held(s, x) + s.history.acked[x] >= s.history.sent[x] + Owed(s.procs, x)
    ensures var s := Run(c, es);
            s.history.sent[x] > s.history.acked[x] ==>
              || x in Payloads(s.delayed) || x in s.dlq
              || exists e :: e in s.stream && e.payload == x && (e.id > s.lastRead || e.id in s.pending)
  {
    hide Run;
    Conservation(c, es, x);
    var s := Run(c, es);
    if LiveCount(s.stream, s.lastRead, s.pending, x) > 0 { LiveWitness(s.stream, s.lastRead, s.pending, x); }
  }

  lemma {:induction false} LiveWitness(stream: seq<Entry>, l: nat, p: map<nat, nat>, x: Bytes)
    requires LiveCount(stream, l, p, x) > 0
    ensures exists e :: e in stream && e.payload == x && Live(e, l, p)
  {
    if Live(stream[0], l, p) && stream[0].payload == x {
      assert stream[0] in stream;
    } else {
      LiveWitness(stream[1..], l, p, x);
    }
  }
}

/** Lemmas about entries of a stream in id order: what has been read, what has not, and what XDEL takes out. */
module StreamEntries {
  import opened RedisLists
  import opened StreamsProtocol
  import B = BagQueue

  function ItemOf(e: Entry): B.Item { B.Item(e.payload, e.count) }

  function Items(es: seq<Entry>): (items: seq<B.Item>)
    ensures |items| == |es|
  {
    if es == [] then [] else [ItemOf(es[0])] + Items(es[1..])
  }

  /** The items of the entries up to id `last`. */
  function Upto(stream: seq<Entry>, last: nat): multiset<B.Item> {
    if stream == [] then multiset{}
    else (if stream[0].id <= last then multiset{ItemOf(stream[0])} else multiset{}) + Upto(stream[1..], last)
  }

  /** The items of the entries after id `last`. */
  function After(stream: seq<Entry>, last: nat): multiset<B.Item> {
    if stream == [] then multiset{}
    else (if stream[0].id > last then multiset{ItemOf(stream[0])} else multiset{}) + After(stream[1..], last)
  }

  lemma FirstEntry(stream: seq<Entry>, last: nat)
    requires stream != []
    ensures stream[0].id <= last ==> && Upto(stream, last) == multiset{ItemOf(stream[0])} + Upto(stream[1..], last)
                                     && After(stream, last) == After(stream[1..], last)
    ensures stream[0].id > last ==> && After(stream, last) == multiset{ItemOf(stream[0])} + After(stream[1..], last)
                                    && Upto(stream, last) == Upto(stream[1..], last)
  {
    hide ItemOf;
  }

  lemma {:induction false} UptoConcat(a: seq<Entry>, b: seq<Entry>, last: nat)
    ensures Upto(a + b, last) == Upto(a, last) + Upto(b, last)
    ensures After(a + b, last) == After(a, last) + After(b, last)
  {
    hide ItemOf;
    if a == [] {
      assert a + b == b;
    } else {
      assert (a + b)[1..] == a[1..] + b;
      UptoConcat(a[1..], b, last);
    }
  }

  lemma {:induction false} AllAfter(es: seq<Entry>, last: nat)
    requires forall e | e in es :: e.id > last
    ensures Upto(es, last) == multiset{} && After(es, last) == multiset(Items(es))
  {
    hide ItemOf;
    if es != [] {
      AllAfter(es[1..], last);
      var items := Items(es);
      assert items == [items[0]] + Items(es[1..]);
    }
  }

  /** Entries with new ids are appended: they wait. */
  lemma Appended(stream: seq<Entry>, es: seq<Entry>, last: nat)
    requires forall e | e in es :: e.id > last
    ensures Upto(stream + es, last) == Upto(stream, last)
    ensures After(stream + es, last) == After(stream, last) + multiset(Items(es))
  {
    UptoConcat(stream, es, last);
    AllAfter(es, last);
  }

  lemma AscendingTail(stream: seq<Entry>)
    requires Ascending(stream) && stream != []
    ensures Ascending(stream[1..]) && forall e | e in stream[1..] :: e.id > stream[0].id
  {
    forall e | e in stream[1..] ensures e.id > stream[0].id {
      var i :| 0 <= i < |stream[1..]| && stream[1..][i] == e;
      assert stream[i + 1] == e;
    }
  }

  /** `es` moves from the unread part to the read part when the last-delivered id goes from `last` to `next`. */
  ghost predicate Moves(stream: seq<Entry>, last: nat, next: nat, es: seq<Entry>) {
    && After(stream, last) == After(stream, next) + multiset(Items(es))
    && Upto(stream, next) == Upto(stream, last) + multiset(Items(es))
  }

  /** The entries a read hands out move from the unread part to the read part. */
  lemma {:induction false} ReadMoves(stream: seq<Entry>, last: nat, max: nat)
    requires Ascending(stream) && Unread(stream, last, max) != []
    ensures var es := Unread(stream, last, max);
            var next := es[|es| - 1].id;
            next > last && Moves(stream, last, next, es)
    decreases |stream|
  {
    hide Ascending, Moves;
    AscendingTail(stream);
    var rest := stream[1..];
    if stream[0].id <= last {
      ReadMoves(rest, last, max);
      MovesSkip(stream, last, Unread(rest, last, max)[|Unread(rest, last, max)| - 1].id, Unread(rest, last, max));
    } else {
      var more := Unread(rest, last, max - 1);
      if more == [] {
        assert [stream[0]] + more == [stream[0]];
        MovesOne(stream, last);
      } else {
        ReadMoves(rest, last, max - 1);
        UnreadAreMembers(rest, last, max - 1);
        assert more[|more| - 1] in more;
        MovesCons(stream, last, more[|more| - 1].id, more);
      }
    }
  }

  lemma MovesSkip(stream: seq<Entry>, last: nat, next: nat, es: seq<Entry>)
    requires stream != [] && stream[0].id <= last < next && Moves(stream[1..], last, next, es)
    ensures Moves(stream, last, next, es)
  {
    hide ItemOf, Upto, After, Items;
    FirstEntry(stream, last);
    FirstEntry(stream, next);
  }

  lemma MovesOne(stream: seq<Entry>, last: nat)
    requires stream != [] && stream[0].id > last && forall e | e in stream[1..] :: e.id > stream[0].id
    ensures Moves(stream, last, stream[0].id, [stream[0]])
  {
    hide ItemOf, Upto, After, Items;
    FirstEntry(stream, last);
    FirstEntry(stream, stream[0].id);
    AllAfter(stream[1..], last);
    AllAfter(stream[1..], stream[0].id);
    ItemsCons(stream[0], []);
    assert [stream[0]] + [] == [stream[0]];
    NoItems();
  }

  lemma MovesCons(stream: seq<Entry>, last: nat, next: nat, es: seq<Entry>)
    requires stream != [] && last < stream[0].id < next && Moves(stream[1..], last, next, es)
    ensures Moves(stream, last, next, [stream[0]] + es)
  {
    hide ItemOf, Upto, After, Items;
    FirstEntry(stream, last);
    FirstEntry(stream, next);
    ItemsCons(stream[0], es);
  }

  lemma NoItems()
    ensures Items([]) == [] && multiset(Items([])) == multiset{}
  {
  }

  lemma ItemsCons(e: Entry, es: seq<Entry>)
    ensures Items([e] + es) == [ItemOf(e)] + Items(es)
    ensures multiset(Items([e] + es)) == multiset{ItemOf(e)} + multiset(Items(es))
  {
    assert ([e] + es)[1..] == es;
  }

  lemma {:induction false} UnreadAreMembers(stream: seq<Entry>, last: nat, max: nat)
    ensures forall e | e in Unread(stream, last, max) :: e in stream && e.id > last
    ensures |Unread(stream, last, max)| <= max
    decreases |stream|
  {
    if stream != [] && max > 0 {
      UnreadAreMembers(stream[1..], last, if stream[0].id > last then max - 1 else max);
    }
  }

  /** A read hands out exactly the entries between the old and the new last-delivered id. */
  lemma {:induction false} UnreadIsARange(stream: seq<Entry>, last: nat, max: nat, e: Entry)
    requires Ascending(stream) && Unread(stream, last, max) != []
    ensures var es := Unread(stream, last, max);
            e in es <==> e in stream && last < e.id <= es[|es| - 1].id
    decreases |stream|
  {
    hide Ascending;
    AscendingTail(stream);
    var rest := stream[1..];
    assert e in stream <==> e == stream[0] || e in rest;
    if stream[0].id <= last {
      UnreadIsARange(rest, last, max, e);
    } else {
      var more := Unread(rest, last, max - 1);
      assert e in [stream[0]] + more <==> e == stream[0] || e in more;
      if more != [] {
        LastUnread(rest, last, max - 1);
        UnreadIsARange(rest, last, max - 1, e);
      }
    }
  }

  /**
   * `es` are the waiting entries, those after id `last`, in order; with `max` other than 0 only the first `max` of
   * them.
   */
  ghost predicate TakesLowest(stream: seq<Entry>, last: nat, max: nat, es: seq<Entry>) {
    var waiting := set e | e in stream && e.id > last;
    && |es| == (if max == 0 || |waiting| < max then |waiting| else max)
    && Ascending(es) && (forall e | e in es :: e in waiting)
    && (forall e, x | e in waiting && e !in es && x in es :: x.id < e.id)
  }

  /** A read with COUNT takes as many entries as it may and there are, those with the lowest ids. */
  lemma ReadTakesLowest(stream: seq<Entry>, last: nat, max: nat)
    requires Ascending(stream)
    ensures TakesLowest(stream, last, max, Unread(stream, last, if max == 0 then |stream| else max))
  {
    WaitingAtMost(stream, last);
    UnreadIsLowest(stream, last, if max == 0 then |stream| else max);
  }

  ghost function Waiting(stream: seq<Entry>, last: nat): set<Entry> {
    set e | e in stream && e.id > last
  }

  lemma {:induction false} WaitingAtMost(stream: seq<Entry>, last: nat)
    ensures |Waiting(stream, last)| <= |stream|
  {
    if stream != [] {
      WaitingAtMost(stream[1..], last);
      WaitingFirst(stream, last);
    }
  }

  lemma WaitingFirst(stream: seq<Entry>, last: nat)
    requires stream != []
    ensures Waiting(stream, last)
         == if stream[0].id > last then {stream[0]} + Waiting(stream[1..], last) else Waiting(stream[1..], last)
  {
    assert stream == [stream[0]] + stream[1..];
  }

  /** `es` are the lowest `m` of `waiting`, in order. */
  ghost predicate Lowest(waiting: set<Entry>, m: nat, es: seq<Entry>) {
    && |es| == (if |waiting| < m then |waiting| else m)
    && Ascending(es) && (forall e | e in es :: e in waiting)
    && (forall e, x | e in waiting && e !in es && x in es :: x.id < e.id)
  }

  lemma {:induction false} UnreadIsLowest(stream: seq<Entry>, last: nat, m: nat)
    requires Ascending(stream)
    ensures Lowest(Waiting(stream, last), m, Unread(stream, last, m))
    decreases |stream|
  {
    hide Lowest, Waiting, Ascending;
    if stream == [] || m == 0 {
      NoneLowest(stream, last, m);
    } else {
      AscendingTail(stream);
      WaitingFirst(stream, last);
      if stream[0].id > last {
        UnreadIsLowest(stream[1..], last, m - 1);
        LowestCons(stream, last, m - 1, Unread(stream[1..], last, m - 1));
      } else {
        UnreadIsLowest(stream[1..], last, m);
      }
    }
  }

  lemma NoneLowest(stream: seq<Entry>, last: nat, m: nat)
    requires stream == [] || m == 0
    ensures Lowest(Waiting(stream, last), m, [])
  {
  }

  lemma LowestCons(stream: seq<Entry>, last: nat, m: nat, es: seq<Entry>)
    requires Ascending(stream) && stream != [] && stream[0].id > last && Lowest(Waiting(stream[1..], last), m, es)
    ensures Lowest(Waiting(stream, last), m + 1, [stream[0]] + es)
  {
    AscendingTail(stream);
    WaitingFirst(stream, last);
    FirstAscends(stream[0], es);
    FirstIsLowest(stream[0], Waiting(stream[1..], last), m, es);
  }

  lemma FirstIsLowest(e: Entry, rest: set<Entry>, m: nat, es: seq<Entry>)
    requires Lowest(rest, m, es) && Ascending([e] + es) && forall x | x in rest :: x.id > e.id
    ensures Lowest({e} + rest, m + 1, [e] + es)
  {
    hide Ascending;
    assert e !in rest;
    var all := [e] + es;
    assert forall x :: x in all <==> x == e || x in es;
  }

  lemma FirstAscends(e: Entry, es: seq<Entry>)
    requires Ascending(es) && forall x | x in es :: x.id > e.id
    ensures Ascending([e] + es)
  {
    forall i, j | 0 <= i < j < |[e] + es| ensures ([e] + es)[i].id < ([e] + es)[j].id {
      assert ([e] + es)[j] == es[j - 1];
    }
  }

  lemma LastUnread(stream: seq<Entry>, last: nat, max: nat)
    requires Unread(stream, last, max) != []
    ensures var es := Unread(stream, last, max); es[|es| - 1] in stream && es[|es| - 1].id > last
  {
    UnreadAreMembers(stream, last, max);
    var es := Unread(stream, last, max);
    assert es[|es| - 1] in es;
  }

  lemma IdSetMember(es: seq<Entry>, id: nat)
    ensures id in IdSet(es) <==> exists e :: e in es && e.id == id
  {
    if id in IdSet(es) {
      var i :| 0 <= i < |es| && es[i].id == id;
      assert es[i] in es;
    }
  }

  lemma IdsMember(es: seq<Entry>, id: nat)
    ensures id in Ids(es) <==> exists e :: e in es && e.id == id
  {
    if id in Ids(es) {
      var i :| 0 <= i < |es| && Ids(es)[i] == id;
      assert es[i] in es;
    }
    if e :| e in es && e.id == id {
      var i :| 0 <= i < |es| && es[i] == e;
      assert Ids(es)[i] == id;
    }
  }

  // ----- XDEL -----

  lemma {:induction false} XDelMembers(stream: seq<Entry>, ids: seq<nat>)
    requires Ascending(stream)
    ensures Ascending(XDel(stream, ids))
    ensures forall e :: e in XDel(stream, ids) <==> e in stream && e.id !in ids
    decreases |stream|
  {
    if stream != [] {
      AscendingTail(stream);
      XDelMembers(stream[1..], ids);
    }
  }

  lemma {:induction false} XDelAbsent(stream: seq<Entry>, ids: seq<nat>)
    requires forall e | e in stream :: e.id !in ids
    ensures XDel(stream, ids) == stream
    decreases |stream|
  {
    if stream != [] { XDelAbsent(stream[1..], ids); }
  }

  lemma {:induction false} XDelOne(stream: seq<Entry>, e: Entry, last: nat)
    requires Ascending(stream) && e in stream && e.id <= last
    ensures Upto(stream, last) == Upto(XDel(stream, [e.id]), last) + multiset{ItemOf(e)}
    ensures After(stream, last) == After(XDel(stream, [e.id]), last)
    decreases |stream|
  {
    hide ItemOf, Ascending, Upto, After;
    AscendingTail(stream);
    FirstEntry(stream, last);
    if stream[0] == e {
      XDelAbsent(stream[1..], [e.id]);
    } else {
      assert stream == [stream[0]] + stream[1..];
      XDelOne(stream[1..], e, last);
      var rest := XDel(stream[1..], [e.id]);
      assert ([stream[0]] + rest)[1..] == rest;
      FirstEntry([stream[0]] + rest, last);
    }
  }

  lemma {:induction false} XDelInTurn(stream: seq<Entry>, id: nat, ids: seq<nat>)
    ensures XDel(stream, [id] + ids) == XDel(XDel(stream, [id]), ids)
    decreases |stream|
  {
    if stream != [] {
      XDelInTurn(stream[1..], id, ids);
      var rest := XDel(stream[1..], [id]);
      assert ([stream[0]] + rest)[1..] == rest;
    }
  }

  /** XDEL of a batch of read entries takes exactly their items out of the read part. */
  lemma {:induction false} XDelBatch(stream: seq<Entry>, batch: seq<Entry>, last: nat)
    requires Ascending(stream) && NoDup(Ids(batch))
    requires forall e | e in batch :: e in stream && e.id <= last
    ensures Upto(stream, last) == Upto(XDel(stream, Ids(batch)), last) + multiset(Items(batch))
    ensures After(stream, last) == After(XDel(stream, Ids(batch)), last)
    decreases |batch|
  {
    hide ItemOf, Upto, After, XDel, Ascending, Items, Ids, NoDup;
    if batch == [] {
      assert Ids([]) == [];
      XDelAbsent(stream, []);
      NoItems();
    } else {
      var (e, rest) := (batch[0], batch[1..]);
      RestOfBatch(stream, batch);
      XDelInTurn(stream, e.id, Ids(rest));
      XDelOne(stream, e, last);
      XDelBatch(XDel(stream, [e.id]), rest, last);
      ItemsCons(e, rest);
    }
  }

  lemma RestOfBatch(stream: seq<Entry>, batch: seq<Entry>)
    requires Ascending(stream) && NoDup(Ids(batch)) && batch != [] && forall e | e in batch :: e in stream
    ensures batch == [batch[0]] + batch[1..] && Ids(batch) == [batch[0].id] + Ids(batch[1..])
    ensures Ascending(XDel(stream, [batch[0].id])) && NoDup(Ids(batch[1..]))
    ensures forall e | e in batch[1..] :: e in batch && e in XDel(stream, [batch[0].id])
  {
    RestHasOtherIds(batch);
    XDelMembers(stream, [batch[0].id]);
    hide XDel, NoDup, Ascending;
  }

  lemma RestHasOtherIds(batch: seq<Entry>)
    requires NoDup(Ids(batch)) && batch != []
    ensures Ids(batch) == [batch[0].id] + Ids(batch[1..]) && NoDup(Ids(batch[1..]))
    ensures forall e | e in batch[1..] :: e in batch && e.id != batch[0].id
  {
    var rest := batch[1..];
    forall x | x in rest ensures x in batch && x.id != batch[0].id {
      var i :| 0 <= i < |rest| && rest[i] == x;
      assert Ids(batch)[i + 1] == x.id && Ids(batch)[0] == batch[0].id;
    }
    forall i, j | 0 <= i < j < |rest| ensures Ids(rest)[i] != Ids(rest)[j] {
      assert Ids(batch)[i + 1] != Ids(batch)[j + 1];
    }
  }

  lemma {:induction false} BodyFound(stream: seq<Entry>, e: Entry)
    requires Ascending(stream) && e in stream
    ensures BodyOf(stream, e.id) == Retry.Some(e.payload)
    decreases |stream|
  {
    AscendingTail(stream);
    if stream[0] != e { BodyFound(stream[1..], e); }
  }

  lemma {:induction false} BodyGone(stream: seq<Entry>, id: nat)
    requires forall e | e in stream :: e.id != id
    ensures BodyOf(stream, id) == Retry.None
    decreases |stream|
  {
    if stream != [] { BodyGone(stream[1..], id); }
  }
}

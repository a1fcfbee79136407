/** The keys of delayed messages: well formed, in order, each with an identifier of its own. */
module DelayedKeys {
  import opened Bytes
  import opened Codec
  import opened Ksuid
  import opened RedisLists
  import opened Retry
  import opened DelayedSet

  ghost predicate AllForm(keys: seq<Bytes>) {
    forall k | k in keys :: HasForm(k)
  }

  /** The identifier of `key` is among the first `n` drawn. */
  ghost predicate Drawn(draw: Draw, n: nat, key: Bytes) {
    exists i :: 0 <= i < n && IdOf(key) == draw(i)
  }

  /** The delayed set holds well-formed keys with count 0, in order, with identifiers among the first `n` drawn. */
  ghost predicate DelayedOk(draw: Draw, n: nat, z: seq<Member>) {
    AllForm(Keys(z)) && Sorted(z) && forall k | k in Keys(z) :: CountOf(k) == 0 && Drawn(draw, n, k)
  }

  /** So the mover never meets a key that does not decode. */
  lemma DelayedDecode(draw: Draw, n: nat, z: seq<Member>, batch: seq<Member>)
    requires DelayedOk(draw, n, z) && forall m | m in batch :: m in z
    ensures AllDecode(Keys(batch))
  {
    hide HasForm, CountOf, Decode, Sorted, Drawn;
    forall i | 0 <= i < |batch| ensures Decode(Keys(batch)[i]).Ok? {
      assert batch[i] in batch;
      var j :| 0 <= j < |z| && z[j] == batch[i];
      assert Keys(z)[j] == Keys(batch)[i];
      FormDecodes(Keys(batch)[i]);
    }
  }

  lemma DelayedLater(draw: Draw, n: nat, m: nat, z: seq<Member>)
    requires n <= m && DelayedOk(draw, n, z)
    ensures DelayedOk(draw, m, z)
  {
    hide HasForm, Sorted;
    hide CountOf;
    forall k | k in Keys(z) ensures CountOf(k) == 0 && Drawn(draw, m, k) {
      assert Drawn(draw, n, k);
    }
  }

  lemma DelayedSuffix(draw: Draw, n: nat, batch: seq<Member>, rest: seq<Member>)
    requires DelayedOk(draw, n, batch + rest)
    ensures DelayedOk(draw, n, rest)
  {
    hide InOrder, HasForm, CountOf, Drawn;
    var z := batch + rest;
    KeysConcat(batch, rest);
    forall k | k in Keys(rest) ensures k in Keys(z) {}
    forall i, j | 0 <= i < j < |rest| ensures InOrder(rest[i], rest[j]) {
      assert z[|batch| + i] == rest[i] && z[|batch| + j] == rest[j];
    }
  }

  /** The identifier of a new member has not been drawn before, so no delayed message has its key. */
  lemma NewMember(draw: Draw, n: nat, z: seq<Member>, key: Bytes)
    requires GoodDraw(draw) && IdOf(key) == draw(n) && forall k | k in Keys(z) :: Drawn(draw, n, k)
    ensures forall m | m in z :: m.key != key
  {
    hide IdOf;
    forall m | m in z ensures m.key != key {
      var i :| 0 <= i < |z| && z[i] == m;
      assert Keys(z)[i] == m.key && Drawn(draw, n, m.key);
    }
  }

  lemma {:induction false} ZAddOfNew(z: seq<Member>, m: Member)
    requires forall x | x in z :: x.key != m.key
    ensures Without(z, m.key) == z && Payloads(Keys(ZAdd(z, m))) == Payloads(Keys(z)) + multiset{PayloadOf(m.key)}
  {
    WithoutAbsent(z, m.key);
    PlaceAdds(z, m);
  }

  lemma {:induction false} WithoutAbsent(z: seq<Member>, key: Bytes)
    requires forall x | x in z :: x.key != key
    ensures Without(z, key) == z
  {
    if z != [] { WithoutAbsent(z[1..], key); }
  }

  lemma {:induction false} PlaceAdds(z: seq<Member>, m: Member)
    ensures Payloads(Keys(Place(z, m))) == Payloads(Keys(z)) + multiset{PayloadOf(m.key)}
  {
    hide PayloadOf, InOrder;
    if z == [] || InOrder(m, z[0]) {
      assert Keys([m] + z)[1..] == Keys(z);
    } else {
      PlaceAdds(z[1..], m);
      var r := Place(z[1..], m);
      assert Keys([z[0]] + r)[1..] == Keys(r) && Keys(z)[1..] == Keys(z[1..]);
    }
  }

  /** A message scheduled under a new identifier is added to the delayed ones, and none of them is lost. */
  lemma DelayedAdd(draw: Draw, n: nat, z: seq<Member>, m: Member)
    requires GoodDraw(draw) && DelayedOk(draw, n, z)
    requires HasForm(m.key) && IdOf(m.key) == draw(n) && CountOf(m.key) == 0
    ensures DelayedOk(draw, n + 1, ZAdd(z, m))
    ensures Payloads(Keys(ZAdd(z, m))) == Payloads(Keys(z)) + multiset{PayloadOf(m.key)}
  {
    hide HasForm, IdOf, CountOf, ZAdd, Sorted;
    NewMember(draw, n, z, m.key);
    ZAddKeepsOrder(z, m);
    ZAddOfNew(z, m);
    forall k | k in Keys(ZAdd(z, m)) ensures HasForm(k) && CountOf(k) == 0 && Drawn(draw, n + 1, k) {
      var i :| 0 <= i < |ZAdd(z, m)| && Keys(ZAdd(z, m))[i] == k;
      assert ZAdd(z, m)[i] in ZAdd(z, m);
      if ZAdd(z, m)[i] != m {
        var j :| 0 <= j < |z| && z[j] == ZAdd(z, m)[i];
        assert Keys(z)[j] == k && Drawn(draw, n, k);
      }
    }
  }

  /** What a pass takes is a prefix of the delayed set, and ZREM of it leaves the rest. */
  lemma MovePrefix(z: seq<Member>, second: nat) returns (rest: seq<Member>)
    ensures var batch := FirstOf(Due(z, second), MOVE_BATCH);
            z == batch + rest && RemoveEach(z, batch) == rest
  {
    var batch := FirstOf(Due(z, second), MOVE_BATCH);
    DueDrop(z, second, |batch|);
    rest := z[|batch|..];
    assert z == batch + rest;
    RemovePrefix(batch, rest);
  }

  /** When the first member is due, a pass takes something, and only members of the set. */
  lemma SomethingDue(z: seq<Member>, second: nat)
    requires z != [] && z[0].score <= second
    ensures var batch := FirstOf(Due(z, second), MOVE_BATCH);
            batch != [] && forall m | m in batch :: m in z
  {
    var batch := FirstOf(Due(z, second), MOVE_BATCH);
    DueDrop(z, second, |batch|);
    assert batch == Due(z, second)[..|batch|] == z[..|batch|];
  }

  /** The keys of what a pass takes are keys of the set, and ZREM by key is ZREM by member. */
  lemma KeysOfThePass(z: seq<Member>, second: nat)
    requires NoDup(Keys(z))
    ensures var batch := FirstOf(Due(z, second), MOVE_BATCH);
            && RemoveEach(Keys(z), Keys(batch)) == Keys(RemoveEach(z, batch)) && |batch| <= MOVE_BATCH
            && NoDup(Keys(batch)) && forall i | 0 <= i < |batch| :: Keys(batch)[i] in Keys(z)
  {
    hide Due, RemoveEach, NoDup, Keys;
    var batch := FirstOf(Due(z, second), MOVE_BATCH);
    var rest := MovePrefix(z, second);
    KeysConcat(batch, rest);
    RemovePrefix(Keys(batch), Keys(rest));
    PrefixNoDup(Keys(batch), Keys(rest));
  }

  lemma PrefixNoDup<T>(a: seq<T>, b: seq<T>)
    requires NoDup(a + b)
    ensures NoDup(a) && forall i | 0 <= i < |a| :: a[i] in a + b
  {
    forall i, j | 0 <= i < j < |a| ensures a[i] != a[j] { assert (a + b)[i] == a[i] && (a + b)[j] == a[j]; }
    forall i | 0 <= i < |a| ensures a[i] in a + b { assert (a + b)[i] == a[i]; }
  }

  /** How many members a pass at `second` takes: those up to that second, but no more than 50. */
  ghost function PassSize(z: seq<Member>, second: nat): nat {
    var due := |set m | m in z && m.score <= second|;
    if due < 50 then due else 50
  }

  /** They are the first ones in order, and ZREM leaves the others. */
  lemma PassTakesTheFirst(z: seq<Member>, second: nat)
    requires Sorted(z)
    ensures var n := PassSize(z, second);
            && n <= |z| && FirstOf(Due(z, second), MOVE_BATCH) == z[..n] && RemoveEach(z, z[..n]) == z[n..]
            && (forall i | 0 <= i < n :: z[i].score <= second)
            && (n < 50 ==> forall i | n <= i < |z| :: z[i].score > second)
  {
    hide Due, RemoveEach, Sorted, InOrder;
    var (n, due) := (PassSize(z, second), Due(z, second));
    DueCount(z, second);
    DueIsThePrefix(z, second);
    hide PassSize;
    assert FirstOf(due, MOVE_BATCH) == due[..n] == z[..n];
    forall i | 0 <= i < n ensures z[i].score <= second { assert z[..|due|][i] == z[i] && due[i] in due; }
    assert z == z[..n] + z[n..];
    RemovePrefix(z[..n], z[n..]);
  }

  /** A member with a later score is not among the first `n` if these are all due. */
  lemma LaterThanPass(z: seq<Member>, n: nat, second: nat, m: Member)
    requires n <= |z| && m in z && second < m.score && forall i | 0 <= i < n :: z[i].score <= second
    ensures m in z[n..]
  {
    var i :| 0 <= i < |z| && z[i] == m;
    assert z[n..][i - n] == m;
  }

  /** Under a new identifier a message joins the delayed ones, and all of them stay. */
  lemma ScheduledJoins(draw: Draw, n: nat, z: seq<Member>, payload: Bytes, second: nat)
    requires GoodDraw(draw) && DelayedOk(draw, n, z)
    ensures var m := Member(second, Encode(draw(n), 0, payload));
            m !in z && forall x :: x in ZAdd(z, m) <==> x == m || x in z
  {
    hide ZAdd, Encode, IdOf, CountOf, HasForm;
    var m := Member(second, Encode(draw(n), 0, payload));
    EncodeHasForm(draw(n), 0, payload);
    NewMember(draw, n, z, m.key);
    ZAddMembers(z, m);
  }

  /** A pass leaves the rest of what is due for the next one. */
  lemma DrainStep(z: seq<Member>, second: nat)
    requires AllDecode(Keys(Due(z, second)))
    ensures var due := Due(z, second);
            var batch := FirstOf(due, MOVE_BATCH);
            && |batch| <= |due| && |batch| <= |z| && AllDecode(Keys(batch)) && AllDecode(Keys(due[|batch|..]))
            && due == batch + due[|batch|..]
            && RemoveEach(z, batch) == z[|batch|..]
            && Due(z[|batch|..], second) == due[|batch|..]
            && (due != [] ==> batch != [])
  {
    hide Decode, Due, Keys, RemoveEach;
    var due := Due(z, second);
    var batch := FirstOf(due, MOVE_BATCH);
    DueDrop(z, second, |batch|);
    assert z == batch + z[|batch|..];
    RemovePrefix(batch, z[|batch|..]);
    assert due == batch + due[|batch|..];
    KeysConcat(batch, due[|batch|..]);
    AllDecodeParts(Keys(batch), Keys(due[|batch|..]));
  }

  lemma AllDecodeParts(a: seq<Bytes>, b: seq<Bytes>)
    requires AllDecode(a + b)
    ensures AllDecode(a) && AllDecode(b)
  {
    hide Decode;
    forall i | 0 <= i < |a| ensures Decode(a[i]).Ok? { assert (a + b)[i] == a[i]; }
    forall i | 0 <= i < |b| ensures Decode(b[i]).Ok? { assert (a + b)[|a| + i] == b[i]; }
  }
}

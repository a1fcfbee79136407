/** The sorted set of delayed messages, kept in the order ZRANGEBYSCORE returns its members, and its due times. */
module DelayedSet {
  import opened Bytes
  import opened Retry

  datatype Member = Member(score: nat, key: Bytes)

  /** By score, then by bytes. */
  predicate InOrder(a: Member, b: Member) {
    a.score < b.score || (a.score == b.score && Before(a.key, b.key))
  }

  ghost predicate Sorted(z: seq<Member>) {
    forall i, j | 0 <= i < j < |z| :: InOrder(z[i], z[j])
  }

  function Place(z: seq<Member>, m: Member): seq<Member> {
    if z == [] || InOrder(m, z[0]) then [m] + z else [z[0]] + Place(z[1..], m)
  }

  function Without(z: seq<Member>, key: Bytes): seq<Member> {
    if z == [] then [] else if z[0].key == key then Without(z[1..], key) else [z[0]] + Without(z[1..], key)
  }

  /** ZADD: an existing member moves to its new score. */
  function ZAdd(z: seq<Member>, m: Member): seq<Member> {
    Place(Without(z, m.key), m)
  }

  /** ZRANGEBYSCORE z 0 second */
  function Due(z: seq<Member>, second: nat): seq<Member> {
    if z == [] || z[0].score > second then [] else [z[0]] + Due(z[1..], second)
  }

  function Keys(z: seq<Member>): (keys: seq<Bytes>)
    ensures |keys| == |z| && forall i | 0 <= i < |z| :: keys[i] == z[i].key
  {
    if z == [] then [] else [z[0].key] + Keys(z[1..])
  }

  // ----- the order -----

  lemma InOrderTransitive(a: Member, b: Member, c: Member)
    requires InOrder(a, b) && InOrder(b, c)
    ensures InOrder(a, c)
  {
    if a.score == b.score == c.score {
      AtMostTransitive(a.key, b.key, c.key);
      if a.key == c.key { AtMostAntisymmetric(a.key, b.key); }
    }
  }

  lemma InOrderTotal(a: Member, b: Member)
    ensures a.key == b.key || InOrder(a, b) || InOrder(b, a)
  {
    AtMostTotal(a.key, b.key);
  }

  lemma SortedCons(m: Member, z: seq<Member>)
    requires Sorted(z) && (z == [] || InOrder(m, z[0]))
    ensures Sorted([m] + z)
  {
    var r := [m] + z;
    forall i, j | 0 <= i < j < |r| ensures InOrder(r[i], r[j]) {
      if i > 0 {
        assert InOrder(z[i - 1], z[j - 1]);
      } else if j > 1 {
        InOrderTransitive(m, z[0], z[j - 1]);
      }
    }
  }

  lemma {:induction false} WithoutShape(z: seq<Member>, key: Bytes)
    requires Sorted(z)
    ensures Sorted(Without(z, key))
    ensures forall m :: m in Without(z, key) <==> m in z && m.key != key
    ensures forall m | Sorted([m] + z) && Without(z, key) != [] :: InOrder(m, Without(z, key)[0])
  {
    if z != [] {
      var r := Without(z[1..], key);
      assert z == [z[0]] + z[1..];
      WithoutShape(z[1..], key);
      assert Sorted([z[0]] + z[1..]);
      if z[0].key != key { SortedCons(z[0], r); }
      forall m | Sorted([m] + z) && Without(z, key) != [] ensures InOrder(m, Without(z, key)[0]) {
        assert InOrder(([m] + z)[0], ([m] + z)[1]);
        if z[0].key == key { InOrderTransitive(m, z[0], r[0]); }
      }
    }
  }

  lemma {:induction false} PlaceShape(z: seq<Member>, m: Member)
    requires Sorted(z) && forall x | x in z :: x.key != m.key
    ensures Sorted(Place(z, m))
    ensures forall x :: x in Place(z, m) <==> x == m || x in z
  {
    if z == [] || InOrder(m, z[0]) {
      SortedCons(m, z);
    } else {
      assert z == [z[0]] + z[1..];
      PlaceShape(z[1..], m);
      InOrderTotal(m, z[0]);
      var r := Place(z[1..], m);
      assert r[0] == m || r[0] == z[1];
      SortedCons(z[0], r);
    }
  }

  /** ZADD keeps the set sorted, and changes it by the one member, whose earlier score is forgotten. */
  lemma ZAddKeepsOrder(z: seq<Member>, m: Member)
    requires Sorted(z)
    ensures Sorted(ZAdd(z, m))
    ensures forall x :: x in ZAdd(z, m) <==> x == m || (x in z && x.key != m.key)
  {
    WithoutShape(z, m.key);
    PlaceShape(Without(z, m.key), m);
  }

  /** What is due is a prefix of the sorted set: exactly the members with a score up to `second`. */
  lemma {:induction false} DueIsThePrefix(z: seq<Member>, second: nat)
    requires Sorted(z)
    ensures var due := Due(z, second);
            |due| <= |z| && z[..|due|] == due && forall i | |due| <= i < |z| :: z[i].score > second
    ensures forall m :: m in Due(z, second) <==> m in z && m.score <= second
  {
    if z == [] {
    } else if z[0].score > second {
      forall m | m in z ensures m.score > second {
        var i :| 0 <= i < |z| && z[i] == m;
        assert i > 0 ==> InOrder(z[0], z[i]);
      }
    } else {
      assert z == [z[0]] + z[1..];
      DueIsThePrefix(z[1..], second);
    }
  }

  /** How many members are due. */
  lemma {:induction false} DueCount(z: seq<Member>, second: nat)
    requires Sorted(z)
    ensures |Due(z, second)| == |set m | m in z && m.score <= second|
  {
    DueIsThePrefix(z, second);
    if z == [] || z[0].score > second {
      assert (set m | m in z && m.score <= second) == {};
    } else {
      assert z == [z[0]] + z[1..];
      DueCount(z[1..], second);
      assert z[0] !in z[1..];
      assert (set m | m in z && m.score <= second) == {z[0]} + (set m | m in z[1..] && m.score <= second);
    }
  }

  lemma SortedOrder(z: seq<Member>)
    requires Sorted(z)
    ensures forall i, j | 0 <= i < j < |z| ::
              z[i].score < z[j].score || (z[i].score == z[j].score && Before(z[i].key, z[j].key))
  {
  }

  /** What is due, and what is not. */
  lemma DueSplits(z: seq<Member>, second: nat)
    requires Sorted(z)
    ensures var due := Due(z, second);
            && |due| <= |z| && Sorted(due) && (forall m :: m in due <==> m in z && m.score <= second)
            && forall m :: m in z[|due|..] <==> m in z && m.score > second
  {
    hide Due, InOrder;
    var due := Due(z, second);
    DueIsThePrefix(z, second);
    forall i, j | 0 <= i < j < |due| ensures InOrder(due[i], due[j]) {
      assert z[..|due|][i] == z[i] && z[..|due|][j] == z[j];
    }
    RestIsLater(z, |due|, second);
  }

  lemma RestIsLater(z: seq<Member>, n: nat, second: nat)
    requires n <= |z| && (forall i | n <= i < |z| :: z[i].score > second)
    requires forall m | m in z[..n] :: m.score <= second
    ensures forall m :: m in z[n..] <==> m in z && m.score > second
  {
    assert z == z[..n] + z[n..];
  }

  /** ZADD in any state: the one member is there with its score, and every other member is as it was. */
  lemma ZAddMembers(z: seq<Member>, m: Member)
    ensures forall x :: x in ZAdd(z, m) <==> x == m || (x in z && x.key != m.key)
  {
    WithoutMembers(z, m.key);
    PlaceMembers(Without(z, m.key), m);
  }

  lemma {:induction false} WithoutMembers(z: seq<Member>, key: Bytes)
    ensures forall m :: m in Without(z, key) <==> m in z && m.key != key
  {
    if z != [] {
      WithoutMembers(z[1..], key);
      assert z == [z[0]] + z[1..];
    }
  }

  lemma {:induction false} PlaceMembers(z: seq<Member>, m: Member)
    ensures forall x :: x in Place(z, m) <==> x == m || x in z
  {
    hide InOrder;
    if z != [] {
      PlaceMembers(z[1..], m);
      assert z == [z[0]] + z[1..];
    }
  }

  // ----- due times -----

  /** `unix_timestamp`: whole seconds since the epoch, an error before it. */
  function UnixTimestamp(t: real): Option<nat> {
    if t < 0.0 then None else Some(t.Floor)
  }

  /**
   * A message sent at `sent` with delay `delay` is eligible in a pass at `now` when its score is at most the
   * second before. It is never eligible before it is due, and always within a second of being due.
   */
  lemma DelayIsKept(sent: real, delay: real, now: real)
    requires sent >= 0.0 && delay >= 0.0 && now >= 1.0
    ensures var eligible := UnixTimestamp(sent + delay).value <= UnixTimestamp(now - 1.0).value;
            && (eligible ==> now > sent + delay)
            && (now >= sent + delay + 1.0 ==> eligible)
            && (eligible <==> now >= (sent + delay).Floor as real + 1.0)
  {
    assert (now - 1.0).Floor == now.Floor - 1;
  }

  lemma KeysConcat(a: seq<Member>, b: seq<Member>)
    ensures Keys(a + b) == Keys(a) + Keys(b)
  {
  }

  lemma {:induction false} DueDrop(z: seq<Member>, second: nat, n: nat)
    requires n <= |Due(z, second)|
    ensures n <= |z| && z[..n] == Due(z, second)[..n] && Due(z[n..], second) == Due(z, second)[n..]
  {
    if n > 0 {
      DueDrop(z[1..], second, n - 1);
      assert z[n..] == z[1..][n - 1..] && z[..n] == [z[0]] + z[1..][..n - 1];
    } else {
      assert z[0..] == z;
    }
  }
}

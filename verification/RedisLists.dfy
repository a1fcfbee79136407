/** The list commands of Redis, as functions on sequences; the head of a list is index 0. */
module RedisLists {
  import opened Bytes
  import opened Codec

  /** LREM list 1 x */
  function RemoveFirst<T(==)>(s: seq<T>, x: T): seq<T> {
    if s == [] then [] else if s[0] == x then s[1..] else [s[0]] + RemoveFirst(s[1..], x)
  }

  /** LREM list 1 x for every x of `xs` in turn; ZREM for the members `xs`. */
  function RemoveEach<T(==)>(s: seq<T>, xs: seq<T>): seq<T>
    decreases |xs|
  {
    if xs == [] then s else RemoveEach(RemoveFirst(s, xs[0]), xs[1..])
  }

  /** LPUSH list x0 x1 ...: the last argument ends up at the head. */
  function PushHeads<T>(s: seq<T>, xs: seq<T>): seq<T>
    decreases |xs|
  {
    if xs == [] then s else PushHeads([xs[0]] + s, xs[1..])
  }

  /** LRANGE list -n -1 */
  function LastOf<T>(s: seq<T>, n: nat): seq<T> {
    if |s| <= n then s else s[|s| - n..]
  }

  /** LRANGE list 0 n-1 */
  function FirstOf<T>(s: seq<T>, n: nat): seq<T> {
    if |s| <= n then s else s[..n]
  }

  predicate NoDup<T(==)>(s: seq<T>) {
    forall i, j | 0 <= i < j < |s| :: s[i] != s[j]
  }

  function Reverse<T>(s: seq<T>): (r: seq<T>)
    ensures |r| == |s|
    ensures forall i | 0 <= i < |s| :: r[i] == s[|s| - 1 - i]
  {
    if s == [] then [] else Reverse(s[1..]) + [s[0]]
  }

  lemma RestOf<T>(s: seq<T>, n: nat) returns (rest: seq<T>)
    ensures s == FirstOf(s, n) + rest
  {
    rest := s[|FirstOf(s, n)|..];
  }

  lemma NoSum<T>(a: multiset<T>, b: multiset<T>)
    ensures a + b == multiset{} <==> a == multiset{} && b == multiset{}
  {
    if a != multiset{} {
      var x :| x in a;
      assert x in a + b;
    }
    if b != multiset{} {
      var x :| x in b;
      assert x in a + b;
    }
  }

  lemma {:induction false} BagNoDup<T>(s: seq<T>)
    requires forall x :: multiset(s)[x] <= 1
    ensures NoDup(s)
  {
    forall i, j | 0 <= i < j < |s| ensures s[i] != s[j] {
      assert s == s[..j] + [s[j]] + s[j + 1..];
      assert s[..j][i] == s[i];
      assert multiset(s)[s[j]] == multiset(s[..j])[s[j]] + 1 + multiset(s[j + 1..])[s[j]];
    }
  }

  lemma {:induction false} NoDupBag<T>(s: seq<T>, x: T)
    requires NoDup(s)
    ensures multiset(s)[x] == if x in s then 1 else 0
  {
    if s != [] {
      assert s == [s[0]] + s[1..];
      NoDupBag(s[1..], x);
      forall i | 0 <= i < |s[1..]| ensures s[1..][i] != s[0] {
        assert s[1..][i] == s[i + 1];
      }
    }
  }

  lemma {:induction false} RemoveFirstBag<T>(s: seq<T>, x: T)
    ensures multiset(RemoveFirst(s, x)) == multiset(s) - multiset{x}
  {
    if s != [] {
      assert s == [s[0]] + s[1..];
      RemoveFirstBag(s[1..], x);
    }
  }

  lemma {:induction false} RemoveFirstMember<T>(s: seq<T>, x: T, y: T)
    ensures y in RemoveFirst(s, x) ==> y in s
    ensures x !in s ==> RemoveFirst(s, x) == s
    ensures y in s && y != x ==> y in RemoveFirst(s, x)
  {
    RemoveFirstBag(s, x);
    assert y in multiset(RemoveFirst(s, x)) <==> y in RemoveFirst(s, x);
    assert y in multiset(s) <==> y in s;
    if x !in s { RemoveFirstAbsent(s, x); }
  }

  lemma {:induction false} RemoveFirstAbsent<T>(s: seq<T>, x: T)
    requires x !in s
    ensures RemoveFirst(s, x) == s
  {
    if s != [] { RemoveFirstAbsent(s[1..], x); }
  }

  lemma {:induction false} RemoveEachMember<T>(s: seq<T>, xs: seq<T>, y: T)
    ensures y in RemoveEach(s, xs) ==> y in s
    ensures y in s && y !in xs ==> y in RemoveEach(s, xs)
    decreases |xs|
  {
    if xs != [] {
      RemoveFirstMember(s, xs[0], y);
      RemoveEachMember(RemoveFirst(s, xs[0]), xs[1..], y);
    }
  }

  lemma {:induction false} PushHeadsReversed<T>(s: seq<T>, xs: seq<T>)
    ensures PushHeads(s, xs) == Reverse(xs) + s
    decreases |xs|
  {
    if xs != [] {
      PushHeadsReversed([xs[0]] + s, xs[1..]);
      assert Reverse(xs[1..]) + ([xs[0]] + s) == Reverse(xs[1..]) + [xs[0]] + s;
    }
  }

  lemma PushHeadsMember<T>(s: seq<T>, xs: seq<T>, y: T)
    ensures y in PushHeads(s, xs) <==> y in s || y in xs
  {
    PushHeadsReversed(s, xs);
    var r := Reverse(xs);
    if y in xs {
      var i :| 0 <= i < |xs| && xs[i] == y;
      assert r[|xs| - 1 - i] == y;
    }
    if y in r {
      var i :| 0 <= i < |r| && r[i] == y;
      assert xs[|xs| - 1 - i] == y;
    }
  }

  /** LREM of the first of a batch of bodies, counted for one payload `x`. */
  lemma BodyRemoval(dlq: seq<Bytes>, bodies: seq<Bytes>, x: Bytes)
    requires bodies != []
    ensures multiset(dlq)[x] + multiset(bodies[1..])[x] + (if bodies[0] in dlq then 0 else multiset{bodies[0]}[x])
         == multiset(RemoveFirst(dlq, bodies[0]))[x] + multiset(bodies)[x]
  {
    RemoveFirstBag(dlq, bodies[0]);
    assert bodies == [bodies[0]] + bodies[1..];
    assert bodies[0] in dlq <==> bodies[0] in multiset(dlq);
  }

  // ----- the payloads held in a list of keys -----

  function Payloads(keys: seq<Bytes>): multiset<Bytes> {
    if keys == [] then multiset{} else multiset{PayloadOf(keys[0])} + Payloads(keys[1..])
  }

  lemma SomePayloads(keys: seq<Bytes>)
    ensures Payloads(keys) == multiset{} <==> keys == []
  {
    hide PayloadOf;
    if keys != [] { assert PayloadOf(keys[0]) in Payloads(keys); }
  }

  lemma {:induction false} PayloadsConcat(a: seq<Bytes>, b: seq<Bytes>)
    ensures Payloads(a + b) == Payloads(a) + Payloads(b)
  {
    if a == [] {
      assert a + b == b;
    } else {
      assert (a + b)[1..] == a[1..] + b;
      PayloadsConcat(a[1..], b);
    }
  }

  lemma PayloadsSingle(key: Bytes)
    ensures Payloads([key]) == multiset{PayloadOf(key)}
  {
    assert [key][1..] == [];
  }

  /** The payload of `x` when removing it from `keys` does not find it. */
  function MissedOne(keys: seq<Bytes>, x: Bytes): multiset<Bytes> {
    if x in keys then multiset{} else multiset{PayloadOf(x)}
  }

  /** The payloads of the keys of `xs` that removing each in turn does not find. */
  function Missed(keys: seq<Bytes>, xs: seq<Bytes>): multiset<Bytes>
    decreases |xs|
  {
    if xs == [] then multiset{} else MissedOne(keys, xs[0]) + Missed(RemoveFirst(keys, xs[0]), xs[1..])
  }

  /** Removing each of `xs` in turn finds it. */
  predicate FindsEach<T(==)>(s: seq<T>, xs: seq<T>)
    decreases |xs|
  {
    xs == [] || (xs[0] in s && FindsEach(RemoveFirst(s, xs[0]), xs[1..]))
  }

  lemma {:induction false} MissedNothing(keys: seq<Bytes>, xs: seq<Bytes>)
    ensures Missed(keys, xs) == multiset{} <==> FindsEach(keys, xs)
    decreases |xs|
  {
    hide RemoveFirst, PayloadOf;
    if xs != [] {
      MissedNothing(RemoveFirst(keys, xs[0]), xs[1..]);
      assert PayloadOf(xs[0]) in multiset{PayloadOf(xs[0])} + Missed(RemoveFirst(keys, xs[0]), xs[1..]);
    }
  }

  lemma {:induction false} PayloadsRemovePresent(keys: seq<Bytes>, key: Bytes)
    requires key in keys
    ensures Payloads(RemoveFirst(keys, key)) + multiset{PayloadOf(key)} == Payloads(keys)
  {
    if keys[0] != key {
      PayloadsRemovePresent(keys[1..], key);
      var rest := RemoveFirst(keys[1..], key);
      assert ([keys[0]] + rest)[1..] == rest;
    }
  }

  lemma PayloadsRemoveFirst(keys: seq<Bytes>, key: Bytes)
    ensures Payloads(RemoveFirst(keys, key)) + multiset{PayloadOf(key)} == Payloads(keys) + MissedOne(keys, key)
  {
    if key in keys {
      PayloadsRemovePresent(keys, key);
    } else {
      RemoveFirstAbsent(keys, key);
    }
  }

  lemma {:induction false} PayloadsRemoveEach(keys: seq<Bytes>, xs: seq<Bytes>)
    ensures Payloads(RemoveEach(keys, xs)) + Payloads(xs) == Payloads(keys) + Missed(keys, xs)
    decreases |xs|
  {
    if xs != [] {
      var kept := RemoveFirst(keys, xs[0]);
      PayloadsRemoveEach(kept, xs[1..]);
      PayloadsRemoveFirst(keys, xs[0]);
      Rearrange(Payloads(RemoveEach(kept, xs[1..])), Payloads(xs[1..]), Payloads(kept), Missed(kept, xs[1..]),
            multiset{PayloadOf(xs[0])}, Payloads(keys), MissedOne(keys, xs[0]));
    }
  }

  lemma Rearrange<T>(a: multiset<T>, b: multiset<T>, c: multiset<T>, d: multiset<T>, x: multiset<T>, e: multiset<T>,
                     y: multiset<T>)
    requires a + b == c + d && c + x == e + y
    ensures a + (x + b) == e + (y + d)
  {
    assert a + (x + b) == (a + b) + x == (c + x) + d;
  }

  lemma {:induction false} PayloadsPushHeads(s: seq<Bytes>, xs: seq<Bytes>)
    ensures Payloads(PushHeads(s, xs)) == Payloads(s) + Payloads(xs)
    decreases |xs|
  {
    if xs != [] {
      PayloadsPushHeads([xs[0]] + s, xs[1..]);
      PayloadsConcat([xs[0]], s);
      PayloadsSingle(xs[0]);
    }
  }

  // ----- keys for a batch -----

  /** A batch of fresh keys with count 0, one per payload. */
  function FreshKeys(ids: seq<Bytes>, payloads: seq<Bytes>): (keys: seq<Bytes>)
    requires |ids| == |payloads|
    ensures |keys| == |ids|
    ensures forall i | 0 <= i < |ids| :: keys[i] == Encode(ids[i], 0, payloads[i])
  {
    if ids == [] then [] else [Encode(ids[0], 0, payloads[0])] + FreshKeys(ids[1..], payloads[1..])
  }

  /** The payload of every key, in order. */
  function PayloadSeq(keys: seq<Bytes>): (ps: seq<Bytes>)
    ensures |ps| == |keys|
    ensures forall i | 0 <= i < |keys| :: ps[i] == PayloadOf(keys[i])
  {
    if keys == [] then [] else [PayloadOf(keys[0])] + PayloadSeq(keys[1..])
  }

  lemma {:induction false} PayloadsAreTheSeq(keys: seq<Bytes>)
    ensures Payloads(keys) == multiset(PayloadSeq(keys))
  {
    if keys != [] {
      PayloadsAreTheSeq(keys[1..]);
      var ps := PayloadSeq(keys);
      assert ps == [ps[0]] + PayloadSeq(keys[1..]);
    }
  }

  lemma PayloadsOfFreshKeys(ids: seq<Bytes>, payloads: seq<Bytes>)
    requires |ids| == |payloads|
    requires forall i | 0 <= i < |ids| :: ValidId(ids[i])
    ensures PayloadSeq(FreshKeys(ids, payloads)) == payloads
    ensures Payloads(FreshKeys(ids, payloads)) == multiset(payloads)
  {
    var keys := FreshKeys(ids, payloads);
    forall i | 0 <= i < |ids| ensures PayloadOf(keys[i]) == payloads[i] {
      EncodeHasForm(ids[i], 0, payloads[i]);
    }
    assert PayloadSeq(keys) == payloads;
    PayloadsAreTheSeq(keys);
  }

  lemma PayloadSeqConcat(a: seq<Bytes>, b: seq<Bytes>)
    ensures PayloadSeq(a + b) == PayloadSeq(a) + PayloadSeq(b)
  {
  }

  /** Removing the members of a prefix one by one, first occurrence each, removes the prefix, repetitions or not. */
  lemma {:induction false} RemovePrefix<T>(batch: seq<T>, rest: seq<T>)
    ensures RemoveEach(batch + rest, batch) == rest
    decreases |batch|
  {
    if batch == [] {
      assert batch + rest == rest;
    } else {
      assert (batch + rest)[1..] == batch[1..] + rest;
      RemovePrefix(batch[1..], rest);
    }
  }
}

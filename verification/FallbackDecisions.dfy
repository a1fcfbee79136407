/** What a sweep of the list backend decides for each message it reaches, by its count and the retry limit. */
module FallbackDecisions {
  import opened Bytes
  import opened Codec
  import opened Ksuid
  import opened RedisLists
  import opened Retry
  import opened DelayedKeys
  import opened FallbackQueue
  import opened FallbackRefinement
  import opened FallbackKeys

  /** Some key carries payload `p` and count `n`. */
  ghost predicate Carries(keys: seq<Bytes>, p: Bytes, n: nat) {
    exists k :: k in keys && PayloadOf(k) == p && CountOf(k) == n
  }

  /** Some expired key does. */
  ghost predicate CarriesExpired(keys: seq<Bytes>, cutoff: Bytes, p: Bytes, n: nat) {
    exists k :: k in keys && Expired(k, cutoff) && PayloadOf(k) == p && CountOf(k) == n
  }

  /** Of the keys `seen`, `retried` are the new copies in main, and `dead` the new dead letters. */
  ghost predicate Decides(limit: Limit, cutoff: Bytes, seen: seq<Bytes>, retried: seq<Bytes>, dead: seq<Bytes>) {
    && (forall p, n: nat :: CarriesExpired(seen, cutoff, p, n) && (limit.None? || n + 1 < limit.value)
                            <==> Carries(retried, p, n + 1))
    && (forall p :: !Carries(retried, p, 0))
    && (forall p :: p in dead <==>
          limit.Some? && exists n: nat :: n + 1 >= limit.value && CarriesExpired(seen, cutoff, p, n))
  }

  // ----- one key more -----

  lemma CarriesCons(key: Bytes, keys: seq<Bytes>, p: Bytes, n: nat)
    ensures Carries([key] + keys, p, n) <==> (PayloadOf(key) == p && CountOf(key) == n) || Carries(keys, p, n)
  {
    hide PayloadOf, CountOf;
    assert forall k :: k in [key] + keys <==> k == key || k in keys;
  }

  lemma ExpiredCons(keys: seq<Bytes>, cutoff: Bytes, p: Bytes, n: nat)
    requires keys != []
    ensures CarriesExpired(keys, cutoff, p, n)
       <==> (Expired(keys[0], cutoff) && PayloadOf(keys[0]) == p && CountOf(keys[0]) == n)
            || CarriesExpired(keys[1..], cutoff, p, n)
  {
    hide PayloadOf, CountOf, Expired;
    assert keys == [keys[0]] + keys[1..];
    assert forall k :: k in keys <==> k == keys[0] || k in keys[1..];
  }

  lemma NothingCarried(cutoff: Bytes, p: Bytes, n: nat)
    ensures !Carries([], p, n) && !CarriesExpired([], cutoff, p, n)
  {
  }

  /** Well-formed keys, of which the expired ones decode. */
  ghost predicate Decodable(keys: seq<Bytes>, cutoff: Bytes) {
    forall k | k in keys :: HasForm(k) && (Expired(k, cutoff) ==> Decode(k).Ok?)
  }

  lemma RetriedKey(limit: Limit, draw: Draw, n: nat, keys: seq<Bytes>, cutoff: Bytes)
    requires WellFormedIds(draw) && keys != [] && Decodable(keys, cutoff)
    ensures var (key, rest) := (keys[0], keys[1..]);
            if Expired(key, cutoff) && (limit.None? || CountOf(key) + 1 < limit.value)
            then var copy := Encode(draw(n), CountOf(key) + 1, PayloadOf(key));
                 && CountOf(copy) == CountOf(key) + 1 && PayloadOf(copy) == PayloadOf(key)
                 && Retried(limit, draw, n, keys, cutoff) == [copy] + Retried(limit, draw, n + 1, rest, cutoff)
            else Retried(limit, draw, n, keys, cutoff) == Retried(limit, draw, n, rest, cutoff)
  {
    assert HasForm(keys[0]) && (Expired(keys[0], cutoff) ==> Decode(keys[0]).Ok?);
    FormDecodes(keys[0]);
    hide Expired, HasForm, PayloadOf, CountOf, IdOf, Encode, Decode, Decodable;
    if CountOf(keys[0]) < USIZE_MAX { EncodeHasForm(draw(n), CountOf(keys[0]) + 1, PayloadOf(keys[0])); }
  }

  lemma {:induction false} RetriedCarries(limit: Limit, draw: Draw, n: nat, keys: seq<Bytes>, cutoff: Bytes,
                                          p: Bytes, c: nat)
    requires WellFormedIds(draw) && Decodable(keys, cutoff)
    ensures Carries(Retried(limit, draw, n, keys, cutoff), p, c)
       <==> c > 0 && CarriesExpired(keys, cutoff, p, c - 1) && (limit.None? || c < limit.value)
    decreases |keys|
  {
    hide Carries, CarriesExpired, Expired, PayloadOf, CountOf, Encode, Retried, HasForm, Decode;
    if keys == [] {
      NothingCarried(cutoff, p, c);
      if c > 0 { NothingCarried(cutoff, p, c - 1); }
      NothingRetried(limit, draw, n, cutoff);
    } else {
      var key := keys[0];
      RetriedKey(limit, draw, n, keys, cutoff);
      if c > 0 { ExpiredCons(keys, cutoff, p, c - 1); }
      if Expired(key, cutoff) && (limit.None? || CountOf(key) + 1 < limit.value) {
        RetriedCarries(limit, draw, n + 1, keys[1..], cutoff, p, c);
        var copy := Encode(draw(n), CountOf(key) + 1, PayloadOf(key));
        CarriesCons(copy, Retried(limit, draw, n + 1, keys[1..], cutoff), p, c);
      } else {
        RetriedCarries(limit, draw, n, keys[1..], cutoff, p, c);
      }
    }
  }

  lemma NothingRetried(limit: Limit, draw: Draw, n: nat, cutoff: Bytes)
    ensures Retried(limit, draw, n, [], cutoff) == [] && DeadLettered(limit, [], cutoff) == [] && Kept([], cutoff) == []
  {
  }

  lemma DeadKey(limit: Limit, keys: seq<Bytes>, cutoff: Bytes)
    requires keys != [] && Decodable(keys, cutoff)
    ensures var (key, rest) := (keys[0], keys[1..]);
            DeadLettered(limit, keys, cutoff)
            == (if Expired(key, cutoff) && limit.Some? && CountOf(key) + 1 >= limit.value then [PayloadOf(key)] else [])
               + DeadLettered(limit, rest, cutoff)
  {
    assert HasForm(keys[0]) && (Expired(keys[0], cutoff) ==> Decode(keys[0]).Ok?);
    FormDecodes(keys[0]);
    hide Expired, HasForm, PayloadOf, CountOf, Decode, Decodable;
  }

  lemma {:induction false} DeadCarries(limit: Limit, keys: seq<Bytes>, cutoff: Bytes, p: Bytes)
    requires Decodable(keys, cutoff)
    ensures p in DeadLettered(limit, keys, cutoff)
       <==> limit.Some? && exists n: nat :: n + 1 >= limit.value && CarriesExpired(keys, cutoff, p, n)
    decreases |keys|
  {
    hide CarriesExpired, Expired, PayloadOf, CountOf, DeadLettered, HasForm, Decode;
    if keys == [] {
      forall n: nat ensures !CarriesExpired(keys, cutoff, p, n) { NothingCarried(cutoff, p, n); }
      NothingDead(limit, cutoff);
    } else {
      DeadKey(limit, keys, cutoff);
      DeadCarries(limit, keys[1..], cutoff, p);
      var dies := Expired(keys[0], cutoff) && limit.Some? && CountOf(keys[0]) + 1 >= limit.value;
      assert p in DeadLettered(limit, keys, cutoff)
          <==> (dies && PayloadOf(keys[0]) == p) || p in DeadLettered(limit, keys[1..], cutoff);
      ExpiredCons(keys, cutoff, p, CountOf(keys[0]));
      forall n: nat
        ensures CarriesExpired(keys, cutoff, p, n)
           <==> (Expired(keys[0], cutoff) && PayloadOf(keys[0]) == p && CountOf(keys[0]) == n)
                || CarriesExpired(keys[1..], cutoff, p, n)
      {
        ExpiredCons(keys, cutoff, p, n);
      }
    }
  }

  lemma NothingDead(limit: Limit, cutoff: Bytes)
    ensures DeadLettered(limit, [], cutoff) == []
  {
  }

  /** Every key seen is kept, retried or dead-lettered, and only one of these. */
  lemma {:induction false} EachOnce(limit: Limit, draw: Draw, n: nat, keys: seq<Bytes>, cutoff: Bytes)
    requires WellFormedIds(draw) && Decodable(keys, cutoff)
    ensures |keys| - |Kept(keys, cutoff)|
         == |Retried(limit, draw, n, keys, cutoff)| + |DeadLettered(limit, keys, cutoff)|
    decreases |keys|
  {
    hide Expired, PayloadOf, CountOf, Encode, Retried, DeadLettered, HasForm, Decode;
    if keys == [] {
      NothingRetried(limit, draw, n, cutoff);
    } else {
      var key := keys[0];
      RetriedKey(limit, draw, n, keys, cutoff);
      DeadKey(limit, keys, cutoff);
      var again := Expired(key, cutoff) && (limit.None? || CountOf(key) + 1 < limit.value);
      EachOnce(limit, draw, if again then n + 1 else n, keys[1..], cutoff);
    }
  }

  lemma {:induction false} NobodyDies(keys: seq<Bytes>, cutoff: Bytes)
    ensures DeadLettered(None, keys, cutoff) == []
  {
    hide Expired, Decode;
    if keys != [] { NobodyDies(keys[1..], cutoff); }
  }

  // ----- the decisions of a sweep -----

  /**
   * A sweep whose oldest leased key is expired goes through the last 50 up to the first expired one that does not
   * decode. Of what it has seen, an expired key of count `n` gets a copy of count `n + 1` into main if and only if
   * `n + 1` is below the limit, its payload goes to the dead-letter list if and only if it is not, and without a limit
   * nothing ever does. As many keys leave processing as copies and dead letters are made.
   */
  ghost predicate SweepDecidesAll(limit: Limit, l: Lists, l': Lists, finished: bool, cutoff: Bytes) {
    var n := if |l.processing| <= 50 then 0 else |l.processing| - 50;
    var batch := l.processing[n..];
    var k := StopsAt(batch, cutoff);
    && StopsFirst(batch, cutoff, k) && (finished <==> k == |batch|) && l.main <= l'.main && l.dlq <= l'.dlq
    && Decides(limit, cutoff, batch[..k], l'.main[|l.main|..], l'.dlq[|l.dlq|..])
    && |l.processing| - |l'.processing| == (|l'.main| - |l.main|) + (|l'.dlq| - |l.dlq|)
    && (limit.None? ==> l'.dlq == l.dlq)
  }

  lemma Decided(limit: Limit, draw: Draw, n: nat, seen: seq<Bytes>, cutoff: Bytes)
    requires WellFormedIds(draw) && Decodable(seen, cutoff)
    ensures Decides(limit, cutoff, seen, Retried(limit, draw, n, seen, cutoff), DeadLettered(limit, seen, cutoff))
    ensures limit.None? ==> DeadLettered(limit, seen, cutoff) == []
  {
    hide Carries, CarriesExpired, Retried, DeadLettered, Decodable;
    var (retried, dead) := (Retried(limit, draw, n, seen, cutoff), DeadLettered(limit, seen, cutoff));
    forall p, c: nat
      ensures Carries(retried, p, c)
         <==> c > 0 && CarriesExpired(seen, cutoff, p, c - 1) && (limit.None? || c < limit.value)
    {
      RetriedCarries(limit, draw, n, seen, cutoff, p, c);
    }
    forall p
      ensures p in dead <==> limit.Some? && exists n: nat :: n + 1 >= limit.value && CarriesExpired(seen, cutoff, p, n)
    {
      DeadCarries(limit, seen, cutoff, p);
    }
    if limit.None? { NobodyDies(seen, cutoff); }
  }

  lemma {:induction false} SweepDecides(limit: Limit, draw: Draw, ops: seq<Op>, cutoff: Bytes)
    requires GoodDraw(draw)
    ensures var l := ApplyAll(limit, draw, START, ops);
            var (l', finished) := SweepOp(limit, draw, l, cutoff);
            if l.processing == [] || !Expired(l.processing[|l.processing| - 1], cutoff) then l' == l && finished
            else SweepDecidesAll(limit, l, l', finished, cutoff)
  {
    assert Valid(draw, START);
    RunRefines(limit, draw, START, ops);
    SweepExactlyInRuns(limit, draw, ops, cutoff);
    hide ApplyAll;
    DecidesIfExact(limit, draw, ApplyAll(limit, draw, START, ops), cutoff);
  }

  lemma DecidesIfExact(limit: Limit, draw: Draw, l: Lists, cutoff: Bytes)
    requires WellFormedIds(draw) && AllForm(l.processing) && SweepsExactly(limit, draw, l, cutoff)
    ensures var (l', finished) := SweepOp(limit, draw, l, cutoff);
            if l.processing == [] || !Expired(l.processing[|l.processing| - 1], cutoff) then l' == l && finished
            else SweepDecidesAll(limit, l, l', finished, cutoff)
  {
    hide SweepOp, StopsFirst, StopsAt, Decides, Expired, AllForm, Decodable, Kept, Retried, DeadLettered, WellFormedIds;
    if l.processing != [] && Expired(l.processing[|l.processing| - 1], cutoff) {
      var n := if |l.processing| <= 50 then 0 else |l.processing| - 50;
      var batch := l.processing[n..];
      var k := StopsAt(batch, cutoff);
      SeenDecode(l.processing, n, k, cutoff);
      Decided(limit, draw, l.drawn, batch[..k], cutoff);
      EachOnce(limit, draw, l.drawn, batch[..k], cutoff);
    }
  }

  lemma SeenDecode(keys: seq<Bytes>, n: nat, k: nat, cutoff: Bytes)
    requires AllForm(keys) && n <= |keys| && StopsFirst(keys[n..], cutoff, k)
    ensures Decodable(keys[n..][..k], cutoff)
  {
    hide HasForm, Decode, Expired;
    var seen := keys[n..][..k];
    forall key | key in seen ensures HasForm(key) && (Expired(key, cutoff) ==> Decode(key).Ok?) {
      var i :| 0 <= i < |seen| && seen[i] == key;
      assert keys[n + i] == key && keys[n..][i] == key;
    }
  }
}

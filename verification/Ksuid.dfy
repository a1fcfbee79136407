/**
 * Identifiers and the expiry test of the list backend.
 *
 * A KSUID is taken to be the 27-digit base62 text of `second * 2^128 + rest`, where `second` counts from the
 * KSUID epoch; the library that draws identifiers is not part of this model. The sweep compares whole keys
 * with the text of such an identifier.
 */
module Ksuid {
  import opened Bytes
  import opened Codec

  const KSUID_EPOCH: int := 1_400_000_000
  const REST_BOUND: nat := 0x1_0000_0000_0000_0000_0000_0000_0000_0000
  const SECOND_BOUND: nat := 0x1_0000_0000

  function Base62Char(d: nat): (b: byte)
    requires d < 62
    ensures IsBase62(b)
  {
    if d < 10 then 48 + d else if d < 36 then 55 + d else 61 + d
  }

  function Base62(v: nat, width: nat): (s: Bytes)
    ensures |s| == width && forall i | 0 <= i < |s| :: IsBase62(s[i])
  {
    if width == 0 then [] else Base62(v / 62, width - 1) + [Base62Char(v % 62)]
  }

  function Pow62(n: nat): nat {
    if n == 0 then 1 else 62 * Pow62(n - 1)
  }

  /** Equal-width base62 texts compare as the numbers they stand for. */
  lemma {:induction false} Base62Order(u: nat, v: nat, width: nat)
    requires u < Pow62(width) && v < Pow62(width)
    ensures AtMost(Base62(u, width), Base62(v, width)) <==> u <= v
    ensures Base62(u, width) == Base62(v, width) <==> u == v
  {
    if width > 0 {
      var (a, x) := (Base62(u / 62, width - 1), Base62Char(u % 62));
      var (b, y) := (Base62(v / 62, width - 1), Base62Char(v % 62));
      Base62Order(u / 62, v / 62, width - 1);
      AtMostLastByte(a, b, x, y);
      assert a + [x] == b + [y] <==> a == b && x == y by {
        assert (a + [x])[..|a|] == a && (b + [y])[..|b|] == b;
        assert (a + [x])[|a|] == x && (b + [y])[|b|] == y;
      }
      assert u == u / 62 * 62 + u % 62 && v == v / 62 * 62 + v % 62;
    }
  }

  lemma {:induction false} Pow62Adds(m: nat, n: nat)
    ensures Pow62(m + n) == Pow62(m) * Pow62(n)
  {
    if m > 0 {
      Pow62Adds(m - 1, n);
      assert 62 * (Pow62(m - 1) * Pow62(n)) == 62 * Pow62(m - 1) * Pow62(n);
    }
  }

  lemma IdentifiersFit(second: nat, rest: nat)
    requires second < SECOND_BOUND && rest < REST_BOUND
    ensures second * REST_BOUND + rest < Pow62(ID_LENGTH)
  {
    Pow62Adds(9, 9);
    Pow62Adds(9, 18);
    assert Pow62(9) == 13_537_086_546_263_552;
    assert second * REST_BOUND <= (SECOND_BOUND - 1) * REST_BOUND;
  }

  function Second(t: real): int { t.Floor - KSUID_EPOCH }

  predicate Representable(t: real) { 0 <= Second(t) < SECOND_BOUND }

  /** The identifier drawn at `t` (seconds since the Unix epoch) when the library chooses `rest`. */
  function Ksuid(t: real, rest: nat): (id: Bytes)
    requires Representable(t) && rest < REST_BOUND
    ensures ValidId(id)
  {
    Base62(Second(t) * REST_BOUND + rest, ID_LENGTH)
  }

  /** The sweep's test `key <= validity_limit`. */
  predicate Expired(key: Bytes, limit: Bytes) {
    AtMost(key, limit)
  }

  lemma KeyIsIdThenTail(id: Bytes, count: nat, payload: Bytes)
    ensures Encode(id, count, payload) == id + ([HASH] + Digits(count) + [BAR] + payload)
  {
  }

  /** The verdict depends on nothing but the identifier, which must be strictly before the limit. */
  lemma ExpiryReadsTheIdOnly(id: Bytes, count: nat, payload: Bytes, limit: Bytes)
    requires |id| == |limit|
    ensures Expired(Encode(id, count, payload), limit) <==> Before(id, limit)
  {
    KeyIsIdThenTail(id, count, payload);
    ExtensionOrder(id, [HASH] + Digits(count) + [BAR] + payload, limit);
  }

  /** A later limit expires every key that an earlier one does. */
  lemma ExpiryMonotone(key: Bytes, earlier: Bytes, later: Bytes)
    requires AtMost(earlier, later) && Expired(key, earlier)
    ensures Expired(key, later)
  {
    AtMostTransitive(key, earlier, later);
  }

  lemma KsuidOrder(t: real, rest: nat, u: real, rest': nat)
    requires Representable(t) && Representable(u) && rest < REST_BOUND && rest' < REST_BOUND
    ensures Before(Ksuid(t, rest), Ksuid(u, rest')) <==> t.Floor < u.Floor || (t.Floor == u.Floor && rest < rest')
  {
    hide Base62, Pow62, AtMost;
    IdentifiersFit(Second(t), rest);
    IdentifiersFit(Second(u), rest');
    Base62Order(Second(t) * REST_BOUND + rest, Second(u) * REST_BOUND + rest', ID_LENGTH);
    SecondsFirst(Second(t), rest, Second(u), rest');
  }

  /**
   * The sweep at `now` retries no message whose identifier is from a later second than `now - ackDeadline`, and
   * retries every message whose identifier is from an earlier one; within that second the random parts decide.
   * The age it measures is that of the identifier, not of the receipt.
   */
  lemma ExpiryMeasuresAge(created: real, rest: nat, count: nat, payload: Bytes,
                          now: real, ackDeadline: real, limitRest: nat)
    requires Representable(created) && Representable(now - ackDeadline)
    requires rest < REST_BOUND && limitRest < REST_BOUND
    ensures var expired := Expired(Encode(Ksuid(created, rest), count, payload), Ksuid(now - ackDeadline, limitRest));
            && (expired ==> created.Floor <= (now - ackDeadline).Floor)
            && (created.Floor < (now - ackDeadline).Floor ==> expired)
            && (created.Floor == (now - ackDeadline).Floor ==> (expired <==> rest < limitRest))
            && (expired ==> now - created > ackDeadline - 1.0)
            && (now - created >= ackDeadline + 1.0 ==> expired)
  {
    ExpiryReadsTheIdOnly(Ksuid(created, rest), count, payload, Ksuid(now - ackDeadline, limitRest));
    KsuidOrder(created, rest, now - ackDeadline, limitRest);
  }

  lemma SecondsFirst(c: nat, r: nat, l: nat, q: nat)
    requires r < REST_BOUND && q < REST_BOUND
    ensures c < l ==> c * REST_BOUND + r < l * REST_BOUND + q
    ensures c > l ==> c * REST_BOUND + r > l * REST_BOUND + q
    ensures c == l ==> (c * REST_BOUND + r < l * REST_BOUND + q <==> r < q)
  {
    if c < l { assert (l - c) * REST_BOUND >= REST_BOUND; }
    if c > l { assert (c - l) * REST_BOUND >= REST_BOUND; }
  }

  /** The identifiers the library draws, in order. */
  type Draw = nat -> Bytes

  ghost predicate WellFormedIds(draw: Draw) {
    forall i :: ValidId(draw(i))
  }

  /** The library's assumed behaviour: identifiers are well formed and never repeat. */
  ghost predicate GoodDraw(draw: Draw) {
    WellFormedIds(draw) && forall i, j :: draw(i) == draw(j) ==> i == j
  }
}

/** Byte strings as Redis stores them, and their order as `Vec<u8>` compares them. */
module Bytes {
  type byte = x: int | 0 <= x < 256

  type Bytes = seq<byte>

  /** The bytes of an ASCII text. */
  function Ascii(text: string): (s: Bytes)
    ensures |s| == |text| && forall i | 0 <= i < |text| :: s[i] == text[i] as int % 256
  {
    seq(|text|, i requires 0 <= i < |text| => text[i] as int % 256)
  }

  /** The first position of `b` in `s`, or `|s|` when there is none. */
  function Position(s: Bytes, b: byte): (i: nat)
    ensures i <= |s|
    ensures forall j :: 0 <= j < i ==> s[j] != b
    ensures i < |s| ==> s[i] == b
  {
    if s == [] || s[0] == b then 0 else 1 + Position(s[1..], b)
  }

  lemma PositionIs(s: Bytes, b: byte, i: nat)
    requires i < |s| && s[i] == b
    requires forall j :: 0 <= j < i ==> s[j] != b
    ensures Position(s, b) == i
  {
  }

  lemma PositionAfter(front: Bytes, b: byte, rest: Bytes)
    requires b !in front
    ensures Position(front + [b] + rest, b) == |front|
  {
    var s := front + [b] + rest;
    forall j | 0 <= j < |front| ensures s[j] != b { assert s[j] == front[j]; }
    PositionIs(s, b, |front|);
  }

  lemma PositionNone(s: Bytes, b: byte)
    requires b !in s
    ensures Position(s, b) == |s|
  {
    if Position(s, b) < |s| { assert false; }
  }

  /** Lexicographic `a <= b`. */
  predicate AtMost(a: Bytes, b: Bytes) {
    a == [] || (b != [] && (a[0] < b[0] || (a[0] == b[0] && AtMost(a[1..], b[1..]))))
  }

  /** Lexicographic `a < b`. */
  predicate Before(a: Bytes, b: Bytes) {
    AtMost(a, b) && a != b
  }

  lemma {:induction false} AtMostReflexive(a: Bytes)
    ensures AtMost(a, a)
  {
    if a != [] { AtMostReflexive(a[1..]); }
  }

  lemma {:induction false} AtMostTotal(a: Bytes, b: Bytes)
    ensures AtMost(a, b) || AtMost(b, a)
  {
    if a != [] && b != [] { AtMostTotal(a[1..], b[1..]); }
  }

  lemma {:induction false} AtMostAntisymmetric(a: Bytes, b: Bytes)
    requires AtMost(a, b) && AtMost(b, a)
    ensures a == b
  {
    if a != [] {
      AtMostAntisymmetric(a[1..], b[1..]);
      assert a == [a[0]] + a[1..] && b == [b[0]] + b[1..];
    }
  }

  lemma {:induction false} AtMostTransitive(a: Bytes, b: Bytes, c: Bytes)
    requires AtMost(a, b) && AtMost(b, c)
    ensures AtMost(a, c)
  {
    if a != [] && a[0] == b[0] == c[0] { AtMostTransitive(a[1..], b[1..], c[1..]); }
  }

  /** For strings of one length the last byte decides only between equal heads. */
  lemma {:induction false} AtMostLastByte(a: Bytes, b: Bytes, x: byte, y: byte)
    requires |a| == |b|
    ensures AtMost(a + [x], b + [y]) <==> Before(a, b) || (a == b && x <= y)
  {
    if a == [] {
      assert a + [x] == [x] && b + [y] == [y];
    } else {
      assert (a + [x])[1..] == a[1..] + [x] && (b + [y])[1..] == b[1..] + [y];
      AtMostLastByte(a[1..], b[1..], x, y);
      assert a == [a[0]] + a[1..] && b == [b[0]] + b[1..];
    }
  }

  /** A proper extension of `a` compares with an equally long `b` as strictly as `a` does. */
  lemma {:induction false} ExtensionOrder(a: Bytes, tail: Bytes, b: Bytes)
    requires |a| == |b| && tail != []
    ensures AtMost(a + tail, b) <==> Before(a, b)
  {
    if a == [] {
      assert a + tail == tail;
    } else {
      assert (a + tail)[1..] == a[1..] + tail;
      ExtensionOrder(a[1..], tail, b[1..]);
      assert a == [a[0]] + a[1..] && b == [b[0]] + b[1..];
    }
  }
}

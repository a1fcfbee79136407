/** The check on the identifier of a key, against the encoding of code points that UTF-8 is. */
module Utf8 {
  import opened Bytes
  import opened Codec

  /** A Unicode scalar value. */
  predicate Scalar(c: nat) { c < 0x11_0000 && !(0xD800 <= c < 0xE000) }

  /** The octets of one scalar value, as section 3 of RFC 3629 lays them out. */
  function Octets(c: nat): (s: Bytes)
    requires Scalar(c)
    ensures s != []
  {
    if c < 0x80 then [c]
    else if c < 0x800 then [0xC0 + c / 64, 0x80 + c % 64]
    else if c < 0x1_0000 then [0xE0 + c / 4096, 0x80 + c / 64 % 64, 0x80 + c % 64]
    else [0xF0 + c / 0x4_0000, 0x80 + c / 4096 % 64, 0x80 + c / 64 % 64, 0x80 + c % 64]
  }

  predicate AllScalar(cs: seq<nat>) { forall i | 0 <= i < |cs| :: Scalar(cs[i]) }

  function Encoded(cs: seq<nat>): Bytes
    requires AllScalar(cs)
  {
    if cs == [] then [] else Octets(cs[0]) + Encoded(cs[1..])
  }

  /** How many octets the first character of `s` takes; 0 if it is not well formed. */
  function FirstLength(s: Bytes): (n: nat)
    ensures n <= |s|
  {
    if s == [] then 0
    else if s[0] < 0x80 then 1
    else if 0xC2 <= s[0] <= 0xDF && |s| >= 2 && Continuation(s[1]) then 2
    else if 0xE0 <= s[0] <= 0xEF && |s| >= 3 && Continuation(s[1]) && Continuation(s[2])
            && (s[0] == 0xE0 ==> s[1] >= 0xA0) && (s[0] == 0xED ==> s[1] <= 0x9F) then 3
    else if 0xF0 <= s[0] <= 0xF4 && |s| >= 4 && Continuation(s[1]) && Continuation(s[2]) && Continuation(s[3])
            && (s[0] == 0xF0 ==> s[1] >= 0x90) && (s[0] == 0xF4 ==> s[1] <= 0x8F) then 4
    else 0
  }

  lemma ValidByFirst(s: Bytes)
    ensures ValidUtf8(s) <==> s == [] || (FirstLength(s) > 0 && ValidUtf8(s[FirstLength(s)..]))
  {
  }

  /** The octets of a scalar value are one well-formed character, whatever follows. */
  lemma OctetsAreFirst(c: nat, rest: Bytes)
    requires Scalar(c)
    ensures FirstLength(Octets(c) + rest) == |Octets(c)| && (Octets(c) + rest)[|Octets(c)|..] == rest
  {
    var s := Octets(c) + rest;
    assert forall i | 0 <= i < |Octets(c)| :: s[i] == Octets(c)[i];
  }

  lemma TwoOctets(i: nat, j: nat)
    requires 2 <= i < 32 && j < 64
    ensures Scalar(i * 64 + j) && Octets(i * 64 + j) == [0xC0 + i, 0x80 + j]
  {
  }

  lemma ThreeOctets(i: nat, j: nat, k: nat)
    requires i < 16 && j < 64 && k < 64 && (i == 0 ==> j >= 32) && (i == 13 ==> j < 32)
    ensures Scalar(i * 4096 + j * 64 + k) && Octets(i * 4096 + j * 64 + k) == [0xE0 + i, 0x80 + j, 0x80 + k]
  {
  }

  lemma FourOctets(i: nat, j: nat, k: nat, l: nat)
    requires i <= 4 && j < 64 && k < 64 && l < 64 && (i == 0 ==> j >= 16) && (i == 4 ==> j < 16)
    ensures var c := i * 0x4_0000 + j * 4096 + k * 64 + l;
            Scalar(c) && Octets(c) == [0xF0 + i, 0x80 + j, 0x80 + k, 0x80 + l]
  {
    var c := i * 0x4_0000 + j * 4096 + k * 64 + l;
    assert c / 64 == i * 4096 + j * 64 + k && c % 64 == l;
    assert c / 4096 == i * 64 + j && c / 0x4_0000 == i;
  }

  /** A well-formed first character is the octets of some scalar value. */
  lemma FirstIsScalar(s: Bytes) returns (c: nat)
    requires FirstLength(s) > 0
    ensures Scalar(c) && s[..FirstLength(s)] == Octets(c)
  {
    hide Octets, Scalar;
    match FirstLength(s)
    case 1 =>
      c := s[0];
      OneOctet(c);
    case 2 =>
      var (i, j) := (s[0] as int - 0xC0, s[1] as int - 0x80);
      c := i * 64 + j;
      TwoOctets(i, j);
    case 3 =>
      var (i, j, k) := (s[0] as int - 0xE0, s[1] as int - 0x80, s[2] as int - 0x80);
      c := i * 4096 + j * 64 + k;
      ThreeOctets(i, j, k);
    case _ =>
      var (i, j, k, l) := (s[0] as int - 0xF0, s[1] as int - 0x80, s[2] as int - 0x80, s[3] as int - 0x80);
      c := i * 0x4_0000 + j * 4096 + k * 64 + l;
      FourOctets(i, j, k, l);
  }

  lemma OneOctet(c: nat)
    requires c < 0x80
    ensures Scalar(c) && Octets(c) == [c]
  {
  }

  lemma {:induction false} EncodedIsValid(cs: seq<nat>)
    requires AllScalar(cs)
    ensures ValidUtf8(Encoded(cs))
  {
    hide Octets, FirstLength, ValidUtf8;
    ValidByFirst(Encoded(cs));
    if cs != [] {
      EncodedIsValid(cs[1..]);
      OctetsAreFirst(cs[0], Encoded(cs[1..]));
    }
  }

  lemma {:induction false} ValidIsEncoded(s: Bytes) returns (cs: seq<nat>)
    requires ValidUtf8(s)
    ensures AllScalar(cs) && Encoded(cs) == s
    decreases |s|
  {
    hide Octets, FirstLength, ValidUtf8;
    ValidByFirst(s);
    if s == [] {
      cs := [];
    } else {
      var n := FirstLength(s);
      var c := FirstIsScalar(s);
      var rest := ValidIsEncoded(s[n..]);
      cs := [c] + rest;
      assert cs[1..] == rest && s == s[..n] + s[n..];
    }
  }

  /** An identifier passes the check if and only if it is the UTF-8 encoding of some text. */
  lemma ValidMeansEncoded(s: Bytes)
    ensures ValidUtf8(s) <==> exists cs :: AllScalar(cs) && Encoded(cs) == s
  {
    hide ValidUtf8, Encoded;
    if ValidUtf8(s) { var cs := ValidIsEncoded(s); }
    if cs :| AllScalar(cs) && Encoded(cs) == s { EncodedIsValid(cs); }
  }
}

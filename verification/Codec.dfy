/** The list key `id#count|payload` that carries a message in the main, processing and delayed stores. */
module Codec {
  import opened Bytes

  const HASH: byte := 35
  const BAR: byte := 124
  const PLUS: byte := 43
  const ID_LENGTH: nat := 27

  /** `usize::MAX` on a 64-bit target. */
  const USIZE_MAX: nat := 0xFFFF_FFFF_FFFF_FFFF

  datatype DecodeError = ImproperKeyFormat | NonUtf8Id

  /** What decoding a key can end in; `Panic` is an out-of-order slice or an overflowing `+ 1`. */
  datatype Decoded =
    | Ok(payload: Bytes, receives: nat)
    | Err(error: DecodeError)
    | Panic

  // ----- decimal numbers -----

  predicate IsDigit(b: byte) { 48 <= b <= 57 }

  predicate AllDigits(d: Bytes) {
    forall i | 0 <= i < |d| :: IsDigit(d[i])
  }

  /** `n.to_string()` */
  function Digits(n: nat): (d: Bytes)
    ensures d != [] && AllDigits(d) && (d[0] == 48 ==> n == 0 && |d| == 1)
  {
    if n < 10 then [48 + n] else Digits(n / 10) + [48 + n % 10]
  }

  function Value(d: Bytes): nat
    requires AllDigits(d)
  {
    if d == [] then 0 else assert IsDigit(d[|d| - 1]); Value(d[..|d| - 1]) * 10 + (d[|d| - 1] - 48)
  }

  /** `s.parse::<usize>()`: an optional `+`, then digits whose value fits. */
  function ParseUsize(s: Bytes): (r: (bool, nat))
    ensures r.0 ==> r.1 <= USIZE_MAX
  {
    var d := if |s| > 1 && s[0] == PLUS then s[1..] else s;
    if d != [] && AllDigits(d) && Value(d) <= USIZE_MAX then (true, Value(d)) else (false, 0)
  }

  lemma {:induction false} ValueOfDigits(n: nat)
    ensures Value(Digits(n)) == n
  {
    if n >= 10 {
      ValueOfDigits(n / 10);
      var d := Digits(n);
      assert d[..|d| - 1] == Digits(n / 10);
    }
  }

  lemma ParsesItsOwnDigits(n: nat)
    requires n <= USIZE_MAX
    ensures ParseUsize(Digits(n)) == (true, n)
  {
    ValueOfDigits(n);
    assert IsDigit(Digits(n)[0]);
  }

  lemma DigitsInjective(m: nat, n: nat)
    requires Digits(m) == Digits(n)
    ensures m == n
  {
    ValueOfDigits(m);
    ValueOfDigits(n);
  }

  // ----- identifiers -----

  predicate IsBase62(b: byte) {
    48 <= b <= 57 || 65 <= b <= 90 || 97 <= b <= 122
  }

  /** The text of a KSUID. */
  predicate ValidId(id: Bytes) {
    |id| == ID_LENGTH && forall i | 0 <= i < |id| :: IsBase62(id[i])
  }

  predicate Continuation(b: byte) { 0x80 <= b <= 0xBF }

  /** `str::from_utf8(s).is_ok()`: the well-formed byte sequences of section 4 of RFC 3629. */
  predicate ValidUtf8(s: Bytes) {
    if s == [] then true
    else if s[0] < 0x80 then ValidUtf8(s[1..])
    else if 0xC2 <= s[0] <= 0xDF then
      |s| >= 2 && Continuation(s[1]) && ValidUtf8(s[2..])
    else if 0xE0 <= s[0] <= 0xEF then
      && |s| >= 3 && Continuation(s[1]) && Continuation(s[2])
      && (s[0] == 0xE0 ==> s[1] >= 0xA0) && (s[0] == 0xED ==> s[1] <= 0x9F)
      && ValidUtf8(s[3..])
    else if 0xF0 <= s[0] <= 0xF4 then
      && |s| >= 4 && Continuation(s[1]) && Continuation(s[2]) && Continuation(s[3])
      && (s[0] == 0xF0 ==> s[1] >= 0x90) && (s[0] == 0xF4 ==> s[1] <= 0x8F)
      && ValidUtf8(s[4..])
    else false
  }

  lemma {:induction false} AsciiIsUtf8(s: Bytes)
    requires forall i | 0 <= i < |s| :: s[i] < 0x80
    ensures ValidUtf8(s)
  {
    if s != [] { AsciiIsUtf8(s[1..]); }
  }

  // ----- the key -----

  /** `internal_to_list_payload`, with the freshly drawn identifier as a parameter. */
  function Encode(id: Bytes, count: nat, payload: Bytes): Bytes {
    id + [HASH] + Digits(count) + [BAR] + payload
  }

  /** `internal_from_list` */
  function Decode(key: Bytes): Decoded {
    var h := Position(key, HASH);
    var p := Position(key, BAR);
    if p == |key| then Err(ImproperKeyFormat)
    else if !ValidUtf8(key[..if h < p then h else p]) then Err(NonUtf8Id)
    else if h == |key| then Ok(key[p + 1..], 1)
    else if p < h then Panic
    else
      var (parsed, n) := ParseUsize(key[h + 1..p]);
      if !parsed then Err(ImproperKeyFormat)
      else if n == USIZE_MAX then Panic
      else Ok(key[p + 1..], n + 1)
  }

  predicate AllDecode(keys: seq<Bytes>) {
    forall i | 0 <= i < |keys| :: Decode(keys[i]).Ok?
  }

  /** The part of a key after its first `|`. */
  function PayloadOf(key: Bytes): Bytes {
    if key == [] then [] else if key[0] == BAR then key[1..] else PayloadOf(key[1..])
  }

  lemma {:induction false} PayloadAfterBar(key: Bytes)
    ensures var p := Position(key, BAR);
            PayloadOf(key) == if p < |key| then key[p + 1..] else []
  {
    if key != [] && key[0] != BAR { PayloadAfterBar(key[1..]); }
  }

  /** The number between the separators of a key. */
  function CountOf(key: Bytes): nat {
    var h := Position(key, HASH);
    var p := Position(key, BAR);
    if h < p then ParseUsize(key[h + 1..p]).1 else 0
  }

  function IdOf(key: Bytes): Bytes {
    if |key| < ID_LENGTH then key else key[..ID_LENGTH]
  }

  /** The keys that `Encode` writes. */
  predicate HasForm(key: Bytes) {
    && ValidId(IdOf(key))
    && CountOf(key) <= USIZE_MAX
    && key == Encode(IdOf(key), CountOf(key), PayloadOf(key))
  }

  lemma DecodedPayload(key: Bytes)
    requires Decode(key).Ok?
    ensures Decode(key).payload == PayloadOf(key)
  {
    hide ValidUtf8, ParseUsize, PayloadOf, Position;
    PayloadAfterBar(key);
  }

  lemma SeparatorsOf(id: Bytes, count: nat, payload: Bytes)
    requires ValidId(id)
    ensures var key := Encode(id, count, payload);
            && Position(key, HASH) == ID_LENGTH
            && Position(key, BAR) == ID_LENGTH + 1 + |Digits(count)|
            && key[..ID_LENGTH] == id
            && key[ID_LENGTH + 1..ID_LENGTH + 1 + |Digits(count)|] == Digits(count)
            && key[ID_LENGTH + 2 + |Digits(count)|..] == payload
  {
    var key := Encode(id, count, payload);
    var d := Digits(count);
    var p := ID_LENGTH + 1 + |d|;
    forall j | 0 <= j < p
      ensures key[j] != BAR && (j < ID_LENGTH ==> key[j] != HASH)
    {
      if j < ID_LENGTH {
        assert key[j] == id[j] && IsBase62(id[j]);
      } else if j > ID_LENGTH {
        assert key[j] == d[j - ID_LENGTH - 1] && IsDigit(d[j - ID_LENGTH - 1]);
      }
    }
    PositionIs(key, HASH, ID_LENGTH);
    PositionIs(key, BAR, p);
  }

  /**
   * The text of a key: the identifier, a `#`, the count in decimal without leading zeros, a `|`, and the payload, with
   * no other `#` or `|` before the payload.
   */
  lemma KeyText(id: Bytes, count: nat, payload: Bytes)
    requires ValidId(id)
    ensures var key := Encode(id, count, payload);
            exists digits ::
              && key == id + Ascii("#") + digits + Ascii("|") + payload
              && digits != [] && (forall i | 0 <= i < |digits| :: 48 <= digits[i] <= 57)
              && Value(digits) == count && (digits[0] == 48 ==> count == 0 && |digits| == 1)
              && 35 !in id && 124 !in id && 35 !in digits && 124 !in digits
  {
    ValueOfDigits(count);
    assert Ascii("#") == [35] && Ascii("|") == [124];
    assert Encode(id, count, payload) == id + Ascii("#") + Digits(count) + Ascii("|") + payload;
    forall i | 0 <= i < |id| ensures id[i] != 35 && id[i] != 124 { assert IsBase62(id[i]); }
    var digits := Digits(count);
    forall i | 0 <= i < |digits| ensures 48 <= digits[i] <= 57 { assert IsDigit(digits[i]); }
  }

  /** What `Encode` writes can be read back field by field, whatever bytes the payload holds. */
  lemma EncodeHasForm(id: Bytes, count: nat, payload: Bytes)
    requires ValidId(id) && count <= USIZE_MAX
    ensures var key := Encode(id, count, payload);
            HasForm(key) && IdOf(key) == id && CountOf(key) == count && PayloadOf(key) == payload
  {
    SeparatorsOf(id, count, payload);
    ParsesItsOwnDigits(count);
    PayloadAfterBar(Encode(id, count, payload));
  }

  /** A well-formed key decodes to its payload and one receive more, except at the largest count. */
  lemma FormDecodes(key: Bytes)
    requires HasForm(key)
    ensures Decode(key) == if CountOf(key) < USIZE_MAX then Ok(PayloadOf(key), CountOf(key) + 1) else Panic
  {
    var id := IdOf(key);
    SeparatorsOf(id, CountOf(key), PayloadOf(key));
    ParsesItsOwnDigits(CountOf(key));
    AsciiIsUtf8(id);
  }

  /** Round trip: payloads may contain `#` and `|`; only the count `usize::MAX` is not read back. */
  lemma RoundTrip(id: Bytes, count: nat, payload: Bytes)
    requires ValidId(id) && count <= USIZE_MAX
    ensures Decode(Encode(id, count, payload)) == Ok(payload, count + 1) <==> count < USIZE_MAX
    ensures count == USIZE_MAX ==> Decode(Encode(id, count, payload)) == Panic
  {
    EncodeHasForm(id, count, payload);
    FormDecodes(Encode(id, count, payload));
  }

  /** Keys written before receive counts existed: readable exactly when the payload has no `#`. */
  lemma LegacyRoundTrip(id: Bytes, payload: Bytes)
    requires ValidId(id)
    ensures Decode(id + [BAR] + payload) == Ok(payload, 1) <==> HASH !in payload
    ensures HASH in payload ==> Decode(id + [BAR] + payload) == Panic
  {
    var key := id + [BAR] + payload;
    forall j | 0 <= j < ID_LENGTH ensures key[j] != BAR && key[j] != HASH && key[j] < 0x80 {
      assert key[j] == id[j] && IsBase62(id[j]);
    }
    PositionIs(key, BAR, ID_LENGTH);
    AsciiIsUtf8(id);
    assert key[..ID_LENGTH] == id && key[ID_LENGTH + 1..] == payload;
    if HASH in payload {
      var j :| 0 <= j < |payload| && payload[j] == HASH;
      assert key[ID_LENGTH + 1 + j] == HASH;
    } else {
      PositionNone(key, HASH);
    }
  }

  // ----- which keys decode -----

  // The separators are `#`, which is 35, and `|`, which is 124; `+` is 43.

  /** `num` is text that parses as the number `n`: digits, leading zeros allowed, perhaps with a `+` in front. */
  ghost predicate Numeral(num: Bytes, n: nat) {
    exists digits ::
      && digits != [] && AllDigits(digits) && Value(digits) == n
      && (num == digits || num == [43] + digits)
  }

  /** `key` is an identifier, a count of one less than `receives`, and a payload, separated by `#` and `|`. */
  ghost predicate Counted(key: Bytes, id: Bytes, num: Bytes, receives: nat, payload: Bytes) {
    && key == id + [35] + num + [124] + payload
    && 35 !in id && 124 !in id && 124 !in num && ValidUtf8(id) && receives > 0 && Numeral(num, receives - 1)
  }

  /** `key` is of the form written before there were counts. */
  ghost predicate Uncounted(key: Bytes, id: Bytes, payload: Bytes) {
    key == id + [124] + payload && 124 !in id && 35 !in key && ValidUtf8(id)
  }

  lemma ParsesNumerals(num: Bytes, n: nat)
    ensures n <= USIZE_MAX ==> (ParseUsize(num) == (true, n) <==> Numeral(num, n))
    ensures ParseUsize(num).0 ==> Numeral(num, ParseUsize(num).1)
  {
    var d := if |num| > 1 && num[0] == PLUS then num[1..] else num;
    if |num| > 1 && num[0] == PLUS { assert num == [43] + d; }
    if ParseUsize(num).0 { assert d != [] && AllDigits(d) && Value(d) == ParseUsize(num).1; }
    if Numeral(num, n) {
      var digits :| digits != [] && AllDigits(digits) && Value(digits) == n
                    && (num == digits || num == [43] + digits);
      if num == digits { assert IsDigit(num[0]); } else { assert num[1..] == digits; }
      assert d == digits;
    }
  }

  /** Where the separators of such keys are. */
  lemma CountedAt(key: Bytes, id: Bytes, num: Bytes, payload: Bytes)
    requires key == id + [35] + num + [124] + payload && 35 !in id && 124 !in id && 124 !in num
    ensures var (h, p) := (Position(key, HASH), Position(key, BAR));
            && h < p < |key| && key[..h] == id && key[h + 1..p] == num && key[p + 1..] == payload
  {
    var (front, rest) := (id + [35] + num, num + [124] + payload);
    assert 124 !in front;
    assert key == front + [124] + payload == id + [35] + rest;
    PositionAfter(front, 124, payload);
    PositionAfter(id, 35, rest);
    CutAgain(id, 35, num, 124, payload);
  }

  lemma CutAgain<T>(a: seq<T>, x: T, b: seq<T>, y: T, c: seq<T>)
    ensures var s := a + [x] + b + [y] + c;
            s[..|a|] == a && s[|a| + 1..|a| + 1 + |b|] == b && s[|a| + |b| + 2..] == c
  {
  }

  lemma UncountedAt(key: Bytes, id: Bytes, payload: Bytes)
    requires Uncounted(key, id, payload)
    ensures var p := Position(key, BAR);
            p < |key| && key[..p] == id && key[p + 1..] == payload && Position(key, HASH) == |key|
  {
    hide ValidUtf8;
    PositionIs(key, BAR, |id|);
    PositionNone(key, HASH);
  }

  /** The two readings of a key that decodes. */
  lemma ReadsAs(key: Bytes)
    requires Decode(key).Ok?
    ensures var Ok(payload, receives) := Decode(key);
            var (h, p) := (Position(key, HASH), Position(key, BAR));
            && p < |key|
            && if h == |key| then receives == 1 && Uncounted(key, key[..p], payload)
               else h < p && receives <= USIZE_MAX && Counted(key, key[..h], key[h + 1..p], receives, payload)
  {
    hide ValidUtf8, Numeral, ParseUsize, Counted, Uncounted, Position;
    var (h, p) := (Position(key, HASH), Position(key, BAR));
    if h == |key| {
      assert forall j | 0 <= j < |key| :: key[j] != HASH;
      UncountedParts(key, p);
    } else {
      ParsesNumerals(key[h + 1..p], ParseUsize(key[h + 1..p]).1);
      CountedParts(key, h, p, Decode(key).receives);
    }
  }

  lemma UncountedParts(key: Bytes, p: nat)
    requires p < |key| && key[p] == 124 && (forall j | 0 <= j < p :: key[j] != 124) && 35 !in key && ValidUtf8(key[..p])
    ensures Uncounted(key, key[..p], key[p + 1..])
  {
    hide ValidUtf8;
    assert key == key[..p] + [124] + key[p + 1..];
    assert 124 !in key[..p];
  }

  lemma CountedParts(key: Bytes, h: nat, p: nat, receives: nat)
    requires h < p < |key| && key[h] == 35 && key[p] == 124
    requires (forall j | 0 <= j < h :: key[j] != 35) && (forall j | 0 <= j < p :: key[j] != 124)
    requires ValidUtf8(key[..h]) && receives > 0 && Numeral(key[h + 1..p], receives - 1)
    ensures Counted(key, key[..h], key[h + 1..p], receives, key[p + 1..])
  {
    hide ValidUtf8, Numeral;
    CutTwice(key, h, p);
    assert 35 !in key[..h] && 124 !in key[..h] && 124 !in key[h + 1..p];
  }

  lemma CutTwice<T>(s: seq<T>, i: nat, j: nat)
    requires i < j < |s|
    ensures s == s[..i] + [s[i]] + s[i + 1..j] + [s[j]] + s[j + 1..]
  {
    assert s == s[..j] + [s[j]] + s[j + 1..];
    assert s[..j] == s[..i] + [s[i]] + s[i + 1..j];
  }

  /**
   * Which byte strings decode, and to what: exactly those made of a UTF-8 identifier without separators, a number
   * below `usize::MAX` between `#` and `|`, and the payload; or, without any `#`, of identifier, `|` and payload.
   */
  lemma DecodesExactly(key: Bytes, payload: Bytes, receives: nat)
    ensures Decode(key) == Ok(payload, receives)
       <==> || (receives == 1 && exists id :: Uncounted(key, id, payload))
            || (receives <= USIZE_MAX && exists id, num :: Counted(key, id, num, receives, payload))
  {
    hide ValidUtf8, Numeral, Counted, Uncounted, ParseUsize;
    if Decode(key) == Ok(payload, receives) { ReadsAs(key); }
    if id :| Uncounted(key, id, payload) { UncountedReads(key, id, payload); }
    if id, num :| Counted(key, id, num, receives, payload) {
      CountedReads(key, id, num, receives, payload);
    }
  }

  lemma UncountedReads(key: Bytes, id: Bytes, payload: Bytes)
    requires Uncounted(key, id, payload)
    ensures Decode(key) == Ok(payload, 1)
  {
    hide ValidUtf8;
    UncountedAt(key, id, payload);
  }

  lemma CountedReads(key: Bytes, id: Bytes, num: Bytes, receives: nat, payload: Bytes)
    requires Counted(key, id, num, receives, payload)
    ensures receives <= USIZE_MAX ==> Decode(key) == Ok(payload, receives)
    ensures receives == USIZE_MAX + 1 ==> Decode(key) == Panic
  {
    hide ValidUtf8, Numeral, ParseUsize;
    CountedAt(key, id, num, payload);
    ParsesNumerals(num, receives - 1);
  }

  /** No two messages share a key unless they agree in identifier, count and payload. */
  lemma EncodeInjective(i: Bytes, m: nat, p: Bytes, j: Bytes, n: nat, q: Bytes)
    requires ValidId(i) && ValidId(j) && m <= USIZE_MAX && n <= USIZE_MAX
    requires Encode(i, m, p) == Encode(j, n, q)
    ensures i == j && m == n && p == q
  {
    EncodeHasForm(i, m, p);
    EncodeHasForm(j, n, q);
  }

  /** What `nack` dead-letters: the payload, or the whole key when it does not decode. */
  function DeadLetterBody(key: Bytes): Bytes {
    match Decode(key) case Ok(payload, _) => payload case _ => key
  }
}

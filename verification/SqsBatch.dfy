/** Batch sending to SQS: everything is converted and measured first, then sent in requests of at most ten. */
module SqsBatch {
  import opened Bytes
  import opened Codec
  import opened Retry

  /** The largest message, in bytes. */
  const MAX_PAYLOAD_SIZE: nat := 262_144

  const MAX_BATCH_SIZE: nat := 10

  datatype Entry = Entry(id: Bytes, body: Bytes)

  /** A request fails as a whole, or is answered with the places of the entries SQS rejected. */
  datatype Reply = Refused | Answered(rejected: set<nat>)

  datatype Outcome = Sent | ConversionFailed | PayloadTooLarge(actual: nat) | RequestFailed

  /** The service: how it will reply to each request, and the requests it has answered. */
  class Service {
    const replies: nat -> Reply
    var made: nat
    var answered: seq<seq<Entry>>

    constructor (replies: nat -> Reply)
      ensures this.replies == replies && made == 0 && answered == []
    {
      this.replies, made, answered := replies, 0, [];
    }

    method SendMessageBatch(entries: seq<Entry>) returns (ok: bool)
      modifies this
      ensures made == old(made) + 1 && ok == replies(old(made)).Answered?
      ensures answered == if ok then old(answered) + [entries] else old(answered)
    {
      ok := replies(made).Answered?;
      made := made + 1;
      if ok { answered := answered + [entries]; }
    }
  }

  // ----- specification -----

  /** `payloads` are what the inputs convert to, one for one. */
  ghost predicate ConvertsTo<I>(inputs: seq<I>, convert: I -> Option<Bytes>, payloads: seq<Bytes>) {
    |payloads| == |inputs| && forall i | 0 <= i < |inputs| :: convert(inputs[i]) == Some(payloads[i])
  }

  /** The converted payloads, unless one fails to convert. */
  function ConvertAll<I>(inputs: seq<I>, convert: I -> Option<Bytes>): (r: Option<seq<Bytes>>)
    ensures r == None <==> exists i :: 0 <= i < |inputs| && convert(inputs[i]) == None
    ensures r.Some? ==> ConvertsTo(inputs, convert, r.value)
  {
    if inputs == [] then Some([])
    else if convert(inputs[0]) == None then None
    else
      match ConvertAll(inputs[1..], convert)
      case None => None
      case Some(rest) => Some([convert(inputs[0]).value] + rest)
  }

  ghost predicate IsFirstTooLarge(payloads: seq<Bytes>, i: nat) {
    i < |payloads| && |payloads[i]| > 262144 && forall j | 0 <= j < i :: |payloads[j]| <= 262144
  }

  function FirstTooLarge(payloads: seq<Bytes>): (r: Option<nat>)
    ensures r == None <==> forall i | 0 <= i < |payloads| :: |payloads[i]| <= 262144
    ensures r.Some? ==> exists i :: 0 <= i < |payloads| && IsFirstTooLarge(payloads, i) && r.value == |payloads[i]|
  {
    if payloads == [] then None
    else if |payloads[0]| > MAX_PAYLOAD_SIZE then Some(|payloads[0]|)
    else
      var r := FirstTooLarge(payloads[1..]);
      assert payloads == [payloads[0]] + payloads[1..];
      assert forall i | 0 <= i < |payloads[1..]| ::
          IsFirstTooLarge(payloads[1..], i) ==> IsFirstTooLarge(payloads, i + 1);
      r
  }

  /** `payloads.chunks(10)` */
  function Chunks(payloads: seq<Bytes>): seq<seq<Bytes>> {
    if payloads == [] then []
    else if |payloads| <= MAX_BATCH_SIZE then [payloads]
    else [payloads[..MAX_BATCH_SIZE]] + Chunks(payloads[MAX_BATCH_SIZE..])
  }

  function EntriesOf(chunk: seq<Bytes>): (es: seq<Entry>)
    ensures |es| == |chunk|
    ensures forall i | 0 <= i < |chunk| :: es[i] == Entry(Digits(i), chunk[i])
  {
    seq(|chunk|, i requires 0 <= i < |chunk| => Entry(Digits(i), chunk[i]))
  }

  /** How many of the next `n` requests are answered before one is refused. */
  function AnsweredFirst(replies: nat -> Reply, made: nat, n: nat): (k: nat)
    ensures k <= n
    decreases n
  {
    if n == 0 || replies(made).Refused? then 0 else 1 + AnsweredFirst(replies, made + 1, n - 1)
  }

  function Requests(chunks: seq<seq<Bytes>>): seq<seq<Entry>> {
    if chunks == [] then [] else [EntriesOf(chunks[0])] + Requests(chunks[1..])
  }

  // ----- the method -----

  /**
   * `requests` are the first ones of a batch, all answered: of one to ten entries each, numbered from 0, and together
   * they carry the payloads in order, up to a multiple of ten or to the end.
   */
  ghost predicate Carry(requests: seq<seq<Entry>>, replies: nat -> Reply, before: nat, payloads: seq<Bytes>) {
    && (forall i | 0 <= i < |requests| :: 1 <= |requests[i]| <= 10 && replies(before + i).Answered?)
    && (forall i, j | 0 <= i < |requests| && 0 <= j < |requests[i]| :: requests[i][j].id == Digits(j))
    && 10 * |requests| < |payloads| + 10
    && AllBodies(requests) == if 10 * |requests| < |payloads| then payloads[..10 * |requests|] else payloads
  }

  /**
   * `send_batch_inner`: nothing is sent unless every input converts and every payload is small enough. Then requests
   * are made until all payloads are sent or one request is refused, and those before it stay sent.
   */
  method SendBatch<I>(service: Service, inputs: seq<I>, convert: I -> Option<Bytes>) returns (r: Outcome)
    modifies service
    ensures r == ConversionFailed <==> exists i :: 0 <= i < |inputs| && convert(inputs[i]) == None
    ensures forall payloads | ConvertsTo(inputs, convert, payloads) ::
              r.PayloadTooLarge? <==> exists i :: 0 <= i < |payloads| && |payloads[i]| > 262144
    ensures forall payloads | ConvertsTo(inputs, convert, payloads) && r.PayloadTooLarge? ::
              exists i :: 0 <= i < |payloads| && IsFirstTooLarge(payloads, i) && r.actual == |payloads[i]|
    ensures r == ConversionFailed || r.PayloadTooLarge? ==>
              service.made == old(service.made) && service.answered == old(service.answered)
    ensures r == Sent || r == RequestFailed ==>
              && old(service.answered) <= service.answered
              && var requests := service.answered[|old(service.answered)|..];
              && service.made == old(service.made) + |requests| + (if r == Sent then 0 else 1)
              && forall payloads | ConvertsTo(inputs, convert, payloads) ::
                   && Carry(requests, service.replies, old(service.made), payloads)
                   && (r == Sent <==> 10 * |requests| >= |payloads|)
                   && (r == RequestFailed ==> service.replies(old(service.made) + |requests|).Refused?)
  {
    hide ConvertAll, ConvertsTo, Carry, AllBodies;
    var converted := ConvertAll(inputs, convert);
    if converted == None {
      ConvertsToNothing(inputs, convert);
      return ConversionFailed;
    }
    var payloads := converted.value;
    forall other | ConvertsTo(inputs, convert, other) ensures other == payloads {
      ConvertedOnce(inputs, convert, payloads, other);
    }
    assert payloads[0..] == payloads;
    for i := 0 to |payloads|
      invariant FirstTooLarge(payloads) == FirstTooLarge(payloads[i..])
    {
      assert payloads[i..][1..] == payloads[i + 1..];
      if |payloads[i]| > MAX_PAYLOAD_SIZE { return PayloadTooLarge(|payloads[i]|); }
    }
    r := SendChunks(service, payloads);
    SentRequests(service.replies, old(service.made), payloads);
  }

  lemma ConvertsToNothing<I>(inputs: seq<I>, convert: I -> Option<Bytes>)
    requires exists i :: 0 <= i < |inputs| && convert(inputs[i]) == None
    ensures forall payloads :: !ConvertsTo(inputs, convert, payloads)
  {
  }

  lemma ConvertedOnce<I>(inputs: seq<I>, convert: I -> Option<Bytes>, payloads: seq<Bytes>, other: seq<Bytes>)
    requires ConvertsTo(inputs, convert, payloads) && ConvertsTo(inputs, convert, other)
    ensures other == payloads
  {
  }

  lemma SentRequests(replies: nat -> Reply, before: nat, payloads: seq<Bytes>)
    ensures var chunks := Chunks(payloads);
            var k := AnsweredFirst(replies, before, |chunks|);
            && |Requests(chunks[..k])| == k && Carry(Requests(chunks[..k]), replies, before, payloads)
            && (k == |chunks| <==> 10 * k >= |payloads|) && (k < |chunks| ==> replies(before + k).Refused?)
  {
    hide EntriesOf, Chunks, Requests, AnsweredFirst, AllBodies;
    var chunks := Chunks(payloads);
    var k := AnsweredFirst(replies, before, |chunks|);
    ChunksShape(payloads);
    AnsweredUntil(replies, before, |chunks|);
    RequestsCarry(payloads, k);
    RequestsAre(chunks[..k]);
  }

  lemma {:induction false} RequestsAre(chunks: seq<seq<Bytes>>)
    ensures |Requests(chunks)| == |chunks|
    ensures forall i | 0 <= i < |chunks| :: Requests(chunks)[i] == EntriesOf(chunks[i])
  {
    hide EntriesOf;
    if chunks != [] { RequestsAre(chunks[1..]); }
  }

  /** The requests, one after the other until one fails. */
  method SendChunks(service: Service, payloads: seq<Bytes>) returns (r: Outcome)
    modifies service
    ensures var chunks := Chunks(payloads);
            var k := AnsweredFirst(service.replies, old(service.made), |chunks|);
            && r == (if k == |chunks| then Sent else RequestFailed)
            && service.answered == old(service.answered) + Requests(chunks[..k])
            && service.made == old(service.made) + (if k == |chunks| then k else k + 1)
  {
    hide EntriesOf, Requests;
    ghost var chunks := Chunks(payloads);
    assert chunks[..0] == [] && Requests([]) == [] by { NoRequests(); }
    var (rest, done) := (payloads, 0);
    while rest != []
      invariant 0 <= done <= |chunks| && Chunks(rest) == chunks[done..]
      invariant service.answered == old(service.answered) + Requests(chunks[..done])
      invariant service.made == old(service.made) + done
      invariant AnsweredFirst(service.replies, old(service.made), |chunks|)
             == done + AnsweredFirst(service.replies, service.made, |chunks| - done)
      decreases |rest|
    {
      var chunk := if |rest| <= MAX_BATCH_SIZE then rest else rest[..MAX_BATCH_SIZE];
      assert chunk == chunks[done] by { assert chunks[done..][0] == chunks[done]; }
      var ok := service.SendMessageBatch(EntriesOf(chunk));
      if !ok { return RequestFailed; }
      RequestsSnoc(chunks, done);
      assert chunks[done..][1..] == chunks[done + 1..];
      rest := rest[|chunk|..];
      done := done + 1;
    }
    assert chunks[..|chunks|] == chunks;
    r := Sent;
  }

  lemma NoRequests()
    ensures Requests([]) == []
  {
  }

  lemma {:induction false} RequestsSnoc(chunks: seq<seq<Bytes>>, k: nat)
    requires k < |chunks|
    ensures Requests(chunks[..k + 1]) == Requests(chunks[..k]) + [EntriesOf(chunks[k])]
  {
    if k == 0 {
      assert chunks[..1] == [chunks[0]] && chunks[..1][1..] == [];
    } else {
      RequestsSnoc(chunks[1..], k - 1);
      assert chunks[..k + 1][1..] == chunks[1..][..k] && chunks[..k][1..] == chunks[1..][..k - 1];
    }
  }

  // ----- what the requests amount to -----

  function Bodies(es: seq<Entry>): (bs: seq<Bytes>)
    ensures |bs| == |es| && forall i | 0 <= i < |es| :: bs[i] == es[i].body
  {
    seq(|es|, i requires 0 <= i < |es| => es[i].body)
  }

  function AllBodies(requests: seq<seq<Entry>>): seq<Bytes> {
    if requests == [] then [] else Bodies(requests[0]) + AllBodies(requests[1..])
  }

  lemma {:induction false} ChunksShape(payloads: seq<Bytes>)
    ensures |Chunks(payloads)| == (|payloads| + 9) / 10
    ensures forall i | 0 <= i < |Chunks(payloads)| :: 1 <= |Chunks(payloads)[i]| <= 10
    ensures forall i | 0 <= i < |Chunks(payloads)| - 1 :: |Chunks(payloads)[i]| == 10
    decreases |payloads|
  {
    if |payloads| > MAX_BATCH_SIZE { ChunksShape(payloads[MAX_BATCH_SIZE..]); }
  }

  /** The entries of a request have pairwise different ids and carry the bodies of its chunk. */
  lemma EntriesShape(chunk: seq<Bytes>)
    ensures Bodies(EntriesOf(chunk)) == chunk
    ensures forall i, j | 0 <= i < j < |chunk| :: EntriesOf(chunk)[i].id != EntriesOf(chunk)[j].id
  {
    forall i, j | 0 <= i < j < |chunk| ensures EntriesOf(chunk)[i].id != EntriesOf(chunk)[j].id {
      if Digits(i) == Digits(j) { DigitsInjective(i, j); }
    }
  }

  /** The first `k` requests carry exactly the first `10 * k` payloads, in order; all of them carry everything. */
  lemma {:induction false} RequestsCarry(payloads: seq<Bytes>, k: nat)
    requires k <= |Chunks(payloads)|
    ensures var n := MAX_BATCH_SIZE * k;
            AllBodies(Requests(Chunks(payloads)[..k])) == if n < |payloads| then payloads[..n] else payloads
    decreases k
  {
    var chunks := Chunks(payloads);
    if k == 0 {
      assert chunks[..0] == [] && payloads[..0] == [];
    } else {
      EntriesShape(chunks[0]);
      assert chunks[..k][1..] == chunks[1..][..k - 1];
      if |payloads| <= MAX_BATCH_SIZE {
        assert |chunks[1..]| == 0 && payloads + [] == payloads;
      } else {
        var rest := payloads[MAX_BATCH_SIZE..];
        RequestsCarry(rest, k - 1);
        var n := MAX_BATCH_SIZE * (k - 1);
        assert payloads == payloads[..MAX_BATCH_SIZE] + rest;
        assert n < |rest| ==> payloads[..MAX_BATCH_SIZE] + rest[..n] == payloads[..MAX_BATCH_SIZE + n];
      }
    }
  }

  /**
   * Batch sending against sending one by one: the answered requests carry a prefix of the payloads, in order and
   * ending at a whole chunk, and all of them exactly when no request is refused.
   */
  lemma BatchSendsAPrefix(replies: nat -> Reply, made: nat, payloads: seq<Bytes>)
    ensures var chunks := Chunks(payloads);
            var k := AnsweredFirst(replies, made, |chunks|);
            var sent := AllBodies(Requests(chunks[..k]));
            && (k == |chunks| ==> sent == payloads)
            && (k < |chunks| ==> 10 * k < |payloads| && sent == payloads[..10 * k]
                                 && replies(made + k).Refused?)
  {
    ChunksShape(payloads);
    AnsweredUntil(replies, made, |Chunks(payloads)|);
    RequestsCarry(payloads, AnsweredFirst(replies, made, |Chunks(payloads)|));
  }

  lemma {:induction false} AnsweredUntil(replies: nat -> Reply, made: nat, n: nat)
    ensures var k := AnsweredFirst(replies, made, n);
            && (forall i | made <= i < made + k :: replies(i).Answered?)
            && (k < n ==> replies(made + k).Refused?)
    decreases n
  {
    if n > 0 && replies(made).Answered? {
      AnsweredUntil(replies, made + 1, n - 1);
    }
  }

  // ----- rejected entries -----

  /** The bodies of a request that SQS did not reject. */
  function Kept(es: seq<Entry>, rejected: set<nat>, i: nat): seq<Bytes>
    requires i <= |es|
    decreases |es| - i
  {
    if i == |es| then [] else (if i in rejected then [] else [es[i].body]) + Kept(es, rejected, i + 1)
  }

  /** What SQS took of the answered requests. */
  function Taken(requests: seq<seq<Entry>>, replies: nat -> Reply, made: nat): seq<Bytes>
    decreases |requests|
  {
    if requests == [] then []
    else Kept(requests[0], if replies(made).Answered? then replies(made).rejected else {}, 0)
         + Taken(requests[1..], replies, made + 1)
  }

  /** No answered request had an entry rejected. */
  predicate NoneRejected(requests: seq<seq<Entry>>, replies: nat -> Reply, made: nat)
    decreases |requests|
  {
    requests == []
    || ((replies(made).Answered? ==> forall j | 0 <= j < |requests[0]| :: j !in replies(made).rejected)
        && NoneRejected(requests[1..], replies, made + 1))
  }

  lemma {:induction false} KeptAll(es: seq<Entry>, rejected: set<nat>, i: nat)
    requires i <= |es|
    ensures |Kept(es, rejected, i)| <= |es| - i
    ensures Kept(es, rejected, i) == Bodies(es)[i..] <==> forall j | i <= j < |es| :: j !in rejected
    ensures |Kept(es, rejected, i)| == |es| - i <==> forall j | i <= j < |es| :: j !in rejected
    decreases |es| - i
  {
    if i < |es| {
      KeptAll(es, rejected, i + 1);
      assert Bodies(es)[i..] == [es[i].body] + Bodies(es)[i + 1..];
      hide Bodies;
      var (front, back) := (if i in rejected then [] else [es[i].body], Kept(es, rejected, i + 1));
      assert (front + back)[|front|..] == back;
    }
  }

  /**
   * The replies' rejected entries are not looked at: a batch that was sent without error is in the queue as a whole
   * if and only if no entry of an answered request was rejected.
   */
  lemma {:induction false} SentMeansTaken(requests: seq<seq<Entry>>, replies: nat -> Reply, made: nat)
    ensures |Taken(requests, replies, made)| <= |AllBodies(requests)|
    ensures Taken(requests, replies, made) == AllBodies(requests) <==> NoneRejected(requests, replies, made)
    decreases |requests|
  {
    if requests != [] {
      var rejected := if replies(made).Answered? then replies(made).rejected else {};
      var rest := requests[1..];
      KeptAll(requests[0], rejected, 0);
      SentMeansTaken(rest, replies, made + 1);
      assert Bodies(requests[0])[0..] == Bodies(requests[0]);
      var (k, b) := (Kept(requests[0], rejected, 0), Bodies(requests[0]));
      var (t, a) := (Taken(rest, replies, made + 1), AllBodies(rest));
      if k + t == b + a {
        assert |k| == |b|;
        assert (k + t)[..|k|] == k && (b + a)[..|b|] == b && (k + t)[|k|..] == t && (b + a)[|b|..] == a;
      }
    }
  }
}

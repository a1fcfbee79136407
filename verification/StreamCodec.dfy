/** The fields of a stream entry that carries a message. */
module StreamCodec {
  import opened Bytes
  import opened Codec

  /** "num_receives" */
  const NUM_RECEIVES: Bytes := [110, 117, 109, 95, 114, 101, 99, 101, 105, 118, 101, 115]

  datatype StreamDecoded =
    | StreamOk(payload: Bytes, receives: nat)
    | BadCount
    | NoPayload
    | StreamPanic

  /** `internal_to_stream_payload!`, as the reader's field map sees it: of two equal names the later wins. */
  function StreamFields(payloadKey: Bytes, payload: Bytes, count: nat): map<Bytes, Bytes> {
    map[payloadKey := payload][NUM_RECEIVES := Digits(count)]
  }

  /** `internal_from_stream` */
  function FromStream(fields: map<Bytes, Bytes>, payloadKey: Bytes): StreamDecoded {
    var (parsed, n) := if NUM_RECEIVES in fields then ParseUsize(fields[NUM_RECEIVES]) else (true, 0);
    if !parsed then BadCount
    else if n == USIZE_MAX then StreamPanic
    else if payloadKey !in fields then NoPayload
    else StreamOk(fields[payloadKey], n + 1)
  }

  /** Round trip, and exactly when a payload field of the same name as the count field spoils it. */
  lemma StreamRoundTrip(payloadKey: Bytes, payload: Bytes, count: nat)
    requires count < USIZE_MAX
    ensures FromStream(StreamFields(payloadKey, payload, count), payloadKey) == StreamOk(payload, count + 1)
       <==> payloadKey != Ascii("num_receives") || payload == Digits(count)
  {
    assert NUM_RECEIVES == Ascii("num_receives");
    ParsesItsOwnDigits(count);
  }

  /** With a payload field of another name, an entry with payload and count reads as just that. */
  lemma EntryReads(payloadKey: Bytes, payload: Bytes, count: nat)
    requires payloadKey != Ascii("num_receives") && count <= USIZE_MAX
    ensures FromStream(StreamFields(payloadKey, payload, count), payloadKey)
         == if count < USIZE_MAX then StreamOk(payload, count + 1) else StreamPanic
  {
    assert NUM_RECEIVES == Ascii("num_receives");
    ParsesItsOwnDigits(count);
  }
}

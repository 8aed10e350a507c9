/** `ENVELOPE_V1` and `PAYLOAD_V1` of `wire.rs`, and the client ids the network
    layer sends under. */
module WireCodec {
  import opened Prelude
  import opened Bytes

  const MAGIC: Bytes := [65, 82, 78, 49]
  const MAX_RECEIPT_IDS: nat := 256

  datatype Envelope =
    | HandshakeEnvelope(sender: Key32, body: Bytes)
    | MessageEnvelope(sender: Key32, body: Bytes)

  function EncodeEnvelope(e: Envelope): Bytes {
    MAGIC + [if e.HandshakeEnvelope? then 1 else 2] + e.sender + e.body
  }

  function DecodeEnvelope(b: Bytes): Option<Envelope> {
    if |b| < 37 || b[..4] != MAGIC then None
    else
      match b[4]
      case 1 => Some(HandshakeEnvelope(b[5..37], b[37..]))
      case 2 => Some(MessageEnvelope(b[5..37], b[37..]))
      case _ => None
  }

  /** Envelopes have exactly one encoding each. */
  lemma EnvelopeRoundTrip(e: Envelope)
    ensures DecodeEnvelope(EncodeEnvelope(e)) == Some(e)
  {
    var b := EncodeEnvelope(e);
    assert b[..4] == MAGIC && b[5..37] == e.sender && b[37..] == e.body;
  }

  lemma EnvelopeBytes(b: Bytes)
    requires DecodeEnvelope(b).Some?
    ensures EncodeEnvelope(DecodeEnvelope(b).value) == b
  {
    assert b == b[..4] + [b[4]] + b[5..37] + b[37..];
  }

  datatype Payload = Text(body: Bytes) | Receipt(ids: seq<Key32>) | Opening

  function EncodeIds(ids: seq<Key32>): (b: Bytes)
    ensures |b| == 32 * |ids|
  {
    if ids == [] then [] else ids[0] + EncodeIds(ids[1..])
  }

  function DecodeIds(b: Bytes): (ids: seq<Key32>)
    requires |b| % 32 == 0
    ensures 32 * |ids| == |b|
  {
    if b == [] then [] else [b[..32]] + DecodeIds(b[32..])
  }

  function EncodePayload(p: Payload): Bytes {
    match p
    case Text(body) => [1] + body
    case Receipt(ids) => [2] + ToBe(|ids|, 2) + EncodeIds(ids)
    case Opening => [3]
  }

  function DecodePayload(b: Bytes): Option<Payload> {
    if b == [] then None
    else
      match b[0]
      case 1 => Some(Text(b[1..]))
      case 2 =>
        if |b| < 3 then None
        else
          var count := U16At(b[1..3]);
          if count == 0 || count > MAX_RECEIPT_IDS || |b[3..]| != count * 32 then None
          else Some(Receipt(DecodeIds(b[3..])))
      case 3 => if |b| == 1 then Some(Opening) else None
      case _ => None
  }

  lemma {:induction false} IdsRoundTrip(ids: seq<Key32>)
    ensures DecodeIds(EncodeIds(ids)) == ids
  {
    if ids != [] {
      IdsRoundTrip(ids[1..]);
      assert EncodeIds(ids)[..32] == ids[0] && EncodeIds(ids)[32..] == EncodeIds(ids[1..]);
    }
  }

  lemma {:induction false} IdsBytes(b: Bytes)
    requires |b| % 32 == 0
    ensures EncodeIds(DecodeIds(b)) == b
  {
    if b != [] {
      IdsBytes(b[32..]);
      assert DecodeIds(b)[1..] == DecodeIds(b[32..]);
      assert b == b[..32] + b[32..];
    }
  }

  /** A payload decodes to itself exactly if it is no receipt, or one that lists
      between 1 and `MAX_RECEIPT_IDS` messages. */
  lemma PayloadRoundTrip(p: Payload)
    ensures DecodePayload(EncodePayload(p)) == Some(p) <==> (p.Receipt? ==> 1 <= |p.ids| <= MAX_RECEIPT_IDS)
  {
    hide ToBe, FromBe, U16At;
    var b := EncodePayload(p);
    match p
    case Text(body) => assert b[1..] == body;
    case Receipt(ids) =>
      assert b[1..3] == ToBe(|ids|, 2) && b[3..] == EncodeIds(ids);
      U16RoundTrip(|ids|);
      IdsRoundTrip(ids);
    case Opening =>
  }

  lemma PayloadBytes(b: Bytes)
    requires DecodePayload(b).Some?
    ensures EncodePayload(DecodePayload(b).value) == b
  {
    hide ToBe, FromBe, U16At;
    assert b == [b[0]] + b[1..];
    if b[0] == 2 {
      IntegerBytes(b[1..3]);
      IdsBytes(b[3..]);
      assert b == [b[0]] + b[1..3] + b[3..];
    }
  }

  // ── Client ids ────────────────────────────────────────────────────────────

  const TEXT: byte := 116
  const RECEIPT: byte := 114
  const OPEN: Bytes := [111]

  predicate IsReserved(id: Bytes) {
    id == OPEN || (|id| > 0 && (id[0] == TEXT || id[0] == RECEIPT))
  }

  function TextId(app: Bytes): Bytes {
    [TEXT] + app
  }

  /** The receipt for `id`; `round > 0` names a later one for the same message. */
  function ReceiptId(id: Key32, round: U64): Bytes {
    [RECEIPT] + id + (if round > 0 then ToBe(round, 8) else [])
  }

  /** The three kinds of client id never collide, and each names its own subject:
      a text id its application id, a receipt id its message and round. */
  lemma ClientIdsAreDistinct(app: Bytes, other: Bytes, id: Key32, id': Key32, round: U64, round': U64)
    ensures IsReserved(TextId(app)) && IsReserved(ReceiptId(id, round)) && IsReserved(OPEN)
    ensures TextId(app) != OPEN && ReceiptId(id, round) != OPEN && TextId(app) != ReceiptId(id, round)
    ensures TextId(app) == TextId(other) ==> app == other
    ensures ReceiptId(id, round) == ReceiptId(id', round') ==> id == id' && round == round'
  {
    assert TextId(app)[1..] == app && TextId(other)[1..] == other;
    assert TextId(app)[0] == TEXT && ReceiptId(id, round)[0] == RECEIPT;
    var (a, b) := (ReceiptId(id, round), ReceiptId(id', round'));
    assert a[1..33] == id && b[1..33] == id';
    assert a[33..] == if round > 0 then ToBe(round, 8) else [];
    assert b[33..] == if round' > 0 then ToBe(round', 8) else [];
    U64RoundTrip(round);
    U64RoundTrip(round');
  }
}

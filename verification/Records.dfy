/** The byte records: what the messenger stores beside its checkpoints, and the
    fixed layouts of first contact. Every record has exactly one encoding. */
module RecordCodec {
  import opened Prelude
  import opened Bytes

  type Magic = b: Bytes | |b| == 7 witness Zeros(7)

  const HANDLE_MAGIC: Magic := [65, 82, 67, 72, 78, 68, 76]
  const PROVISIONAL_MAGIC: Magic := [65, 82, 67, 72, 83, 73, 78]
  const OUTBOX_MAGIC: Magic := [65, 82, 67, 79, 85, 84, 66]
  const INBOX_MAGIC: Magic := [65, 82, 67, 73, 78, 66, 88]
  const SEEN_MAGIC: Magic := [65, 82, 67, 83, 69, 69, 78]
  const SENDID_MAGIC: Magic := [65, 82, 67, 83, 78, 68, 73]
  const ABANDONED_MAGIC: Magic := [65, 82, 67, 83, 78, 68, 88]
  const RECORD_VERSION: byte := 1

  const MAX_PROVISIONAL_HANDSHAKE_LEN := 1024
  const MAX_CLIENT_MESSAGE_ID_LEN := 64

  // ── A magic, a version and one 32-byte field: handle and id records ───────

  function EncodeTagged(magic: Magic, id: Key32): Bytes {
    magic + [RECORD_VERSION] + id
  }

  function DecodeTagged(magic: Magic, b: Bytes): Option<Key32> {
    if |b| != 40 || b[..7] != magic || b[7] != RECORD_VERSION then None else Some(b[8..40])
  }

  /** A record is read back under its own magic and under no other; so a sent, an
      abandoned and a seen record, and a handle, are never mistaken. */
  lemma TaggedRoundTrip(magic: Magic, other: Magic, id: Key32)
    ensures DecodeTagged(other, EncodeTagged(magic, id)) == if other == magic then Some(id) else None
  {
    var b := EncodeTagged(magic, id);
    assert b[..7] == magic && b[8..40] == id;
  }

  lemma TaggedBytes(magic: Magic, b: Bytes)
    requires DecodeTagged(magic, b).Some?
    ensures EncodeTagged(magic, DecodeTagged(magic, b).value) == b
  {
    assert b == b[..7] + [b[7]] + b[8..40];
  }

  // ── Provisional handshakes ────────────────────────────────────────────────

  datatype Provisional = Provisional(peer: Key32, handshake: Bytes)

  predicate Recordable(p: Provisional) {
    1 <= |p.handshake| <= MAX_PROVISIONAL_HANDSHAKE_LEN
  }

  function EncodeProvisional(p: Provisional): Option<Bytes> {
    if !Recordable(p) then None
    else Some(PROVISIONAL_MAGIC + [RECORD_VERSION] + p.peer + ToBe(|p.handshake|, 2) + p.handshake)
  }

  function DecodeProvisional(b: Bytes): Option<Provisional> {
    if |b| < 42 || b[..7] != PROVISIONAL_MAGIC || b[7] != RECORD_VERSION then None
    else
      var len := U16At(b[40..42]);
      if len == 0 || len > MAX_PROVISIONAL_HANDSHAKE_LEN || |b| != 42 + len then None
      else Some(Provisional(b[8..40], b[42..]))
  }

  /** Encoding refuses exactly what decoding would. */
  lemma ProvisionalRoundTrip(p: Provisional)
    ensures EncodeProvisional(p).Some? <==> Recordable(p)
    ensures Recordable(p) ==> DecodeProvisional(EncodeProvisional(p).value) == Some(p)
  {
    hide ToBe, U16At;
    if Recordable(p) {
      var b := EncodeProvisional(p).value;
      U16RoundTrip(|p.handshake|);
      assert b[..7] == PROVISIONAL_MAGIC && b[8..40] == p.peer && b[40..42] == ToBe(|p.handshake|, 2) && b[42..] == p.handshake;
    }
  }

  lemma ProvisionalBytes(b: Bytes)
    requires DecodeProvisional(b).Some?
    ensures EncodeProvisional(DecodeProvisional(b).value) == Some(b)
  {
    hide ToBe, U16At;
    IntegerBytes(b[40..42]);
    assert b == b[..7] + [b[7]] + b[8..40] + b[40..42] + b[42..];
  }

  // ── Outbox and inbox ──────────────────────────────────────────────────────

  datatype Outgoing = Outgoing(id: Key32, client: Bytes, generation: U64, wire: Bytes)

  /** The caller bounds the client id; the lengths are written as one and four
      bytes. */
  function EncodeOutbox(m: Outgoing): Bytes {
    OUTBOX_MAGIC + [RECORD_VERSION] + ToBe(m.generation, 8) + m.id + [|m.client| % 256] + m.client + ToBe(|m.wire|, 4) + m.wire
  }

  /** `digest` is SHA-256: a record is accepted only if its id is its message's. */
  function DecodeOutbox(digest: Bytes -> Key32, b: Bytes): Option<Outgoing> {
    if |b| < 53 || b[..7] != OUTBOX_MAGIC || b[7] != RECORD_VERSION then None
    else
      var (len, rest) := (b[48], b[49..]);
      if len == 0 || len > MAX_CLIENT_MESSAGE_ID_LEN || |rest| < len + 4 then None
      else
        var wire := rest[len + 4..];
        if |wire| != U32At(rest[len..len + 4]) || digest(wire) != b[16..48] then None
        else Some(Outgoing(b[16..48], rest[..len], U64At(b[8..16]), wire))
  }

  predicate ValidOutgoing(digest: Bytes -> Key32, m: Outgoing) {
    1 <= |m.client| <= MAX_CLIENT_MESSAGE_ID_LEN && |m.wire| <= U32_MAX && digest(m.wire) == m.id
  }

  lemma OutboxBytes(digest: Bytes -> Key32, b: Bytes)
    requires DecodeOutbox(digest, b).Some?
    ensures var m := DecodeOutbox(digest, b).value;
            ValidOutgoing(digest, m) && EncodeOutbox(m) == b
  {
    hide ToBe, FromBe, U32At, U64At;
    var (len, rest) := (b[48], b[49..]);
    IntegerBytes(b[8..16]);
    IntegerBytes(rest[len..len + 4]);
    assert rest == rest[..len] + rest[len..len + 4] + rest[len + 4..];
    assert b == b[..7] + [b[7]] + b[8..16] + b[16..48] + [b[48]] + rest;
    var m := DecodeOutbox(digest, b).value;
    assert EncodeOutbox(m) == b[..7] + [b[7]] + b[8..16] + b[16..48] + [b[48]] + (rest[..len] + rest[len..len + 4] + rest[len + 4..]);
  }

  /** An outbox record decodes to itself exactly if its client id and lengths are
      within bounds and it is filed under its own message's digest. */
  lemma OutboxRoundTrip(digest: Bytes -> Key32, m: Outgoing)
    ensures DecodeOutbox(digest, EncodeOutbox(m)) == Some(m) <==> ValidOutgoing(digest, m)
  {
    hide ToBe, FromBe, U32At, U64At;
    var b := EncodeOutbox(m);
    if DecodeOutbox(digest, b) == Some(m) {
      OutboxBytes(digest, b);
    }
    if ValidOutgoing(digest, m) {
      var len := |m.client|;
      assert b[..7] == OUTBOX_MAGIC && b[8..16] == ToBe(m.generation, 8) && b[16..48] == m.id && b[48] == len;
      assert b[49..] == m.client + ToBe(|m.wire|, 4) + m.wire;
      assert b[49..][..len] == m.client && b[49..][len..len + 4] == ToBe(|m.wire|, 4) && b[49..][len + 4..] == m.wire;
      U64RoundTrip(m.generation);
      U32RoundTrip(|m.wire|);
    }
  }

  datatype Incoming = Incoming(id: Key32, generation: U64, plaintext: Bytes)

  function EncodeInbox(m: Incoming): Bytes {
    INBOX_MAGIC + [RECORD_VERSION] + ToBe(m.generation, 8) + m.id + ToBe(|m.plaintext|, 4) + m.plaintext
  }

  function DecodeInbox(b: Bytes): Option<Incoming> {
    if |b| < 52 || b[..7] != INBOX_MAGIC || b[7] != RECORD_VERSION then None
    else if |b| != 52 + U32At(b[48..52]) then None
    else Some(Incoming(b[16..48], U64At(b[8..16]), b[52..]))
  }

  lemma InboxBytes(b: Bytes)
    requires DecodeInbox(b).Some?
    ensures var m := DecodeInbox(b).value;
            |m.plaintext| <= U32_MAX && EncodeInbox(m) == b
  {
    hide ToBe, FromBe, U32At, U64At;
    IntegerBytes(b[8..16]);
    IntegerBytes(b[48..52]);
    assert b == b[..7] + [b[7]] + b[8..16] + b[16..48] + b[48..52] + b[52..];
  }

  lemma InboxRoundTrip(m: Incoming)
    ensures DecodeInbox(EncodeInbox(m)) == Some(m) <==> |m.plaintext| <= U32_MAX
  {
    hide ToBe, FromBe, U32At, U64At;
    var b := EncodeInbox(m);
    if DecodeInbox(b) == Some(m) {
      InboxBytes(b);
    }
    if |m.plaintext| <= U32_MAX {
      assert b[..7] == INBOX_MAGIC && b[8..16] == ToBe(m.generation, 8) && b[16..48] == m.id;
      assert b[48..52] == ToBe(|m.plaintext|, 4) && b[52..] == m.plaintext;
      U64RoundTrip(m.generation);
      U32RoundTrip(|m.plaintext|);
    }
  }
}

/** `PREKEY_BUNDLE_V1`, `INITIATOR_HANDSHAKE_V1` and the stored prekey record:
    fixed layouts filled in place, in which an absent one-time prekey is zeros. */
module FirstContactCodec {
  import opened Prelude
  import opened Bytes

  const PROTOCOL_VERSION: byte := 1
  const CIPHER_SUITE: byte := 1
  const RECORD_VERSION: byte := 1
  const FLAG_OTP: byte := 1

  const PREKEY_BUNDLE_V1_LEN := 204
  const INITIATOR_HANDSHAKE_V1_LEN := 84
  const PREKEY_RECORD_V2_LEN := 138

  type Key64 = b: Bytes | |b| == 64 witness Zeros(64)
  type SpkId = b: Bytes | |b| == 8 witness Zeros(8)

  /** A one-time prekey with its identifier. */
  datatype OneTime = OneTime(id: U64, key: Key32)

  datatype PrekeyRecord = PrekeyRecord(signedSecret: Key32, signature: Key64, oneTime: Option<OneTime>)

  datatype Bundle = Bundle(identity: Key32, signing: Key32, signedPrekey: Key32, signature: Key64, oneTime: Option<OneTime>)

  datatype Handshake = Handshake(identity: Key32, ephemeral: Key32, spkId: SpkId, oneTimeId: Option<U64>)

  datatype LayoutError =
    | WrongLength
    | UnsupportedVersion
    | UnknownFlags
    | ReservedNotZero
    | InvalidSigningKey
    | AbsentNotZero

  // ── Filling a buffer from the front ───────────────────────────────────────

  predicate AllZero(b: Bytes) {
    forall i :: 0 <= i < |b| ==> b[i] == 0
  }

  /** Copies `part` to offset `at`; nothing else changes. */
  method Put(out: array<byte>, at: nat, part: Bytes)
    requires at + |part| <= out.Length
    modifies out
    ensures out[..at] == old(out[..at]) && out[at..at + |part|] == part && out[at + |part|..] == old(out[at + |part|..])
  {
    for n := 0 to |part|
      invariant forall i :: at <= i < at + n ==> out[i] == part[i - at]
      invariant forall i :: 0 <= i < out.Length && !(at <= i < at + n) ==> out[i] == old(out[i])
    {
      out[at + n] := part[n];
    }
  }

  /** `Put` at the first offset not filled yet. */
  method Fill(out: array<byte>, at: nat, part: Bytes)
    requires at + |part| <= out.Length && AllZero(out[at..])
    modifies out
    ensures out[..at + |part|] == old(out[..at]) + part && AllZero(out[at + |part|..])
  {
    ghost var rest := out[at..];
    Put(out, at, part);
    assert out[..at + |part|] == out[..at] + out[at..at + |part|];
    assert rest[|part|..] == old(out[at + |part|..]);
  }

  method ZeroedBuffer(n: nat) returns (out: array<byte>)
    ensures fresh(out) && out.Length == n && out[..0] == [] && AllZero(out[0..])
  {
    out := new byte[n](_ => 0);
  }

  lemma FilledTo(b: Bytes, filled: Bytes, n: nat)
    requires n == |filled| <= |b| && b[..n] == filled && AllZero(b[n..])
    ensures b == filled + Zeros(|b| - n)
  {
    assert b == b[..n] + b[n..];
  }

  // ── The stored prekey record ──────────────────────────────────────────────

  function OneTimeBytes(o: Option<OneTime>): (b: Bytes)
    ensures |b| == 40
  {
    match o
    case Some(p) => ToBe(p.id, 8) + p.key
    case None => Zeros(40)
  }

  function Flag<T>(o: Option<T>): byte {
    if o.Some? then FLAG_OTP else 0
  }

  function RecordBytes(r: PrekeyRecord): (b: Bytes)
    ensures |b| == PREKEY_RECORD_V2_LEN
  {
    [RECORD_VERSION] + r.signedSecret + r.signature + [Flag(r.oneTime)] + OneTimeBytes(r.oneTime)
  }

  method PackPrekeys(r: PrekeyRecord) returns (out: array<byte>)
    ensures fresh(out) && out[..] == RecordBytes(r)
  {
    hide AllZero, ToBe;
    out := ZeroedBuffer(PREKEY_RECORD_V2_LEN);
    Fill(out, 0, [RECORD_VERSION]);
    Fill(out, 1, r.signedSecret);
    Fill(out, 33, r.signature);
    if r.oneTime.Some? {
      Fill(out, 97, [FLAG_OTP]);
      Fill(out, 98, ToBe(r.oneTime.value.id, 8));
      Fill(out, 106, r.oneTime.value.key);
      FilledTo(out[..], out[..138], 138);
    } else {
      FilledTo(out[..], [RECORD_VERSION] + r.signedSecret + r.signature, 97);
    }
    assert out[..] == RecordBytes(r);
  }

  /** The one-time part, read under its flag. */
  function ReadOneTime(flags: byte, b: Bytes): Result<Option<OneTime>, LayoutError>
    requires |b| == 40
  {
    if flags == FLAG_OTP then Ok(Some(OneTime(U64At(b[..8]), b[8..])))
    else if !AllZero(b) then Err(AbsentNotZero)
    else Ok(None)
  }

  function UnpackPrekeys(b: Bytes): Result<PrekeyRecord, LayoutError> {
    if |b| != PREKEY_RECORD_V2_LEN then Err(WrongLength)
    else if b[0] != RECORD_VERSION then Err(UnsupportedVersion)
    else if b[97] != 0 && b[97] != FLAG_OTP then Err(UnknownFlags)
    else
      match ReadOneTime(b[97], b[98..])
      case Err(e) => Err(e)
      case Ok(oneTime) => Ok(PrekeyRecord(b[1..33], b[33..97], oneTime))
  }

  lemma OneTimeRoundTrip(o: Option<OneTime>)
    ensures ReadOneTime(Flag(o), OneTimeBytes(o)) == Ok(o)
  {
    hide ToBe, U64At;
    if o.Some? {
      U64RoundTrip(o.value.id);
      assert OneTimeBytes(o)[..8] == ToBe(o.value.id, 8) && OneTimeBytes(o)[8..] == o.value.key;
    }
  }

  lemma OneTimeBytesBack(flags: byte, b: Bytes)
    requires |b| == 40 && (flags == 0 || flags == FLAG_OTP) && ReadOneTime(flags, b).Ok?
    ensures var o := ReadOneTime(flags, b).value;
            Flag(o) == flags && OneTimeBytes(o) == b
  {
    hide ToBe, U64At;
    if flags == FLAG_OTP {
      IntegerBytes(b[..8]);
      assert b == b[..8] + b[8..];
    }
  }

  lemma PrekeysRoundTrip(r: PrekeyRecord)
    ensures UnpackPrekeys(RecordBytes(r)) == Ok(r)
  {
    hide OneTimeBytes, ReadOneTime;
    var b := RecordBytes(r);
    OneTimeRoundTrip(r.oneTime);
    assert b[1..33] == r.signedSecret && b[33..97] == r.signature && b[98..] == OneTimeBytes(r.oneTime);
  }

  lemma PrekeysBytes(b: Bytes)
    requires UnpackPrekeys(b).Ok?
    ensures RecordBytes(UnpackPrekeys(b).value) == b
  {
    hide OneTimeBytes, ReadOneTime;
    OneTimeBytesBack(b[97], b[98..]);
    assert b == [b[0]] + b[1..33] + b[33..97] + [b[97]] + b[98..];
  }

  // ── Bundles and handshakes ────────────────────────────────────────────────

  function Header(flags: byte): (b: Bytes)
    ensures |b| == 4
  {
    [PROTOCOL_VERSION, CIPHER_SUITE, flags, 0]
  }

  function CheckHeader(b: Bytes): Option<LayoutError>
    requires |b| >= 4
  {
    if b[0] != PROTOCOL_VERSION || b[1] != CIPHER_SUITE then Some(UnsupportedVersion)
    else if b[2] != 0 && b[2] != FLAG_OTP then Some(UnknownFlags)
    else if b[3] != 0 then Some(ReservedNotZero)
    else None
  }

  function BundleBytes(r: Bundle): (b: Bytes)
    ensures |b| == PREKEY_BUNDLE_V1_LEN
  {
    Header(Flag(r.oneTime)) + r.identity + r.signing + r.signedPrekey + r.signature + OneTimeBytes(r.oneTime)
  }

  lemma BundleParts(r: Bundle)
    ensures BundleBytes(r)
            == Header(Flag(r.oneTime)) + (r.identity + r.signing + r.signedPrekey + r.signature + OneTimeBytes(r.oneTime))
  {
  }

  method PackBundle(r: Bundle) returns (out: array<byte>)
    ensures fresh(out) && out[..] == BundleBytes(r)
  {
    hide AllZero, ToBe, Zeros, BundleBytes, Header;
    out := ZeroedBuffer(PREKEY_BUNDLE_V1_LEN);
    Fill(out, 0, Header(0));
    Fill(out, 4, r.identity);
    Fill(out, 36, r.signing);
    Fill(out, 68, r.signedPrekey);
    Fill(out, 100, r.signature);
    ghost var front := r.identity + r.signing + r.signedPrekey + r.signature;
    if r.oneTime.Some? {
      Fill(out, 164, ToBe(r.oneTime.value.id, 8));
      Fill(out, 172, r.oneTime.value.key);
      FilledTo(out[..], Header(0) + front + OneTimeBytes(r.oneTime), 204);
      SetFlag(out, front + OneTimeBytes(r.oneTime));
    } else {
      FilledTo(out[..], Header(0) + front, 164);
    }
    assert out[..] == Header(Flag(r.oneTime)) + (front + OneTimeBytes(r.oneTime));
    BundleParts(r);
  }

  method SetFlag(out: array<byte>, ghost rest: Bytes)
    requires out[..] == Header(0) + rest
    modifies out
    ensures out[..] == Header(FLAG_OTP) + rest
  {
    assert out.Length == |out[..]| == 4 + |rest|;
    out[2] := FLAG_OTP;
    forall i | 4 <= i < out.Length
      ensures out[i] == rest[i - 4]
    {
      assert out[i] == old(out[..])[i];
    }
    assert old(out[..])[0] == PROTOCOL_VERSION && old(out[..])[1] == CIPHER_SUITE && old(out[..])[3] == 0;
  }

  /** `isKey` is Ed25519's check of a public key. */
  function UnpackBundle(isKey: Key32 -> bool, b: Bytes): Result<Bundle, LayoutError> {
    if |b| != PREKEY_BUNDLE_V1_LEN then Err(WrongLength)
    else if CheckHeader(b).Some? then Err(CheckHeader(b).value)
    else if !isKey(b[36..68]) then Err(InvalidSigningKey)
    else
      match ReadOneTime(b[2], b[164..])
      case Err(e) => Err(e)
      case Ok(oneTime) => Ok(Bundle(b[4..36], b[36..68], b[68..100], b[100..164], oneTime))
  }

  /** A bundle is read back exactly if its signing key is one. */
  lemma BundleRoundTrip(isKey: Key32 -> bool, r: Bundle)
    ensures UnpackBundle(isKey, BundleBytes(r)) == if isKey(r.signing) then Ok(r) else Err(InvalidSigningKey)
  {
    hide OneTimeBytes, ReadOneTime;
    var b := BundleBytes(r);
    OneTimeRoundTrip(r.oneTime);
    assert b[4..36] == r.identity && b[36..68] == r.signing && b[68..100] == r.signedPrekey;
    assert b[100..164] == r.signature && b[164..] == OneTimeBytes(r.oneTime);
  }

  lemma BundleBytesBack(isKey: Key32 -> bool, b: Bytes)
    requires UnpackBundle(isKey, b).Ok?
    ensures var r := UnpackBundle(isKey, b).value;
            isKey(r.signing) && BundleBytes(r) == b
  {
    hide OneTimeBytes, ReadOneTime;
    OneTimeBytesBack(b[2], b[164..]);
    assert b == [b[0], b[1], b[2], b[3]] + b[4..36] + b[36..68] + b[68..100] + b[100..164] + b[164..];
  }

  function IdBytes(id: Option<U64>): (b: Bytes)
    ensures |b| == 8
  {
    match id
    case Some(n) => ToBe(n, 8)
    case None => Zeros(8)
  }

  function HandshakeBytes(h: Handshake): (b: Bytes)
    ensures |b| == INITIATOR_HANDSHAKE_V1_LEN
  {
    Header(Flag(h.oneTimeId)) + h.identity + h.ephemeral + h.spkId + IdBytes(h.oneTimeId)
  }

  method PackHandshake(h: Handshake) returns (out: array<byte>)
    ensures fresh(out) && out[..] == HandshakeBytes(h)
  {
    hide AllZero, ToBe, Zeros;
    out := ZeroedBuffer(INITIATOR_HANDSHAKE_V1_LEN);
    Fill(out, 0, Header(0));
    Fill(out, 4, h.identity);
    Fill(out, 36, h.ephemeral);
    Fill(out, 68, h.spkId);
    ghost var front := h.identity + h.ephemeral + h.spkId;
    if h.oneTimeId.Some? {
      Fill(out, 76, ToBe(h.oneTimeId.value, 8));
      FilledTo(out[..], Header(0) + front + IdBytes(h.oneTimeId), 84);
      SetFlag(out, front + IdBytes(h.oneTimeId));
    } else {
      FilledTo(out[..], Header(0) + front, 76);
    }
    assert out[..] == Header(Flag(h.oneTimeId)) + (front + IdBytes(h.oneTimeId));
    assert HandshakeBytes(h) == Header(Flag(h.oneTimeId)) + (front + IdBytes(h.oneTimeId));
  }

  function UnpackHandshake(b: Bytes): Result<Handshake, LayoutError> {
    if |b| != INITIATOR_HANDSHAKE_V1_LEN then Err(WrongLength)
    else if CheckHeader(b).Some? then Err(CheckHeader(b).value)
    else if b[2] != FLAG_OTP && !AllZero(b[76..]) then Err(AbsentNotZero)
    else Ok(Handshake(b[4..36], b[36..68], b[68..76], if b[2] == FLAG_OTP then Some(U64At(b[76..])) else None))
  }

  lemma HandshakeRoundTrip(h: Handshake)
    ensures UnpackHandshake(HandshakeBytes(h)) == Ok(h)
  {
    hide ToBe, U64At;
    var b := HandshakeBytes(h);
    assert b[4..36] == h.identity && b[36..68] == h.ephemeral && b[68..76] == h.spkId && b[76..] == IdBytes(h.oneTimeId);
    if h.oneTimeId.Some? {
      U64RoundTrip(h.oneTimeId.value);
    }
  }

  /** In particular an absent one-time prekey has one encoding, so nothing rides
      along inside an accepted handshake. */
  lemma HandshakeBytesBack(b: Bytes)
    requires UnpackHandshake(b).Ok?
    ensures HandshakeBytes(UnpackHandshake(b).value) == b
  {
    hide ToBe, U64At;
    IntegerBytes(b[76..]);
    assert b == [b[0], b[1], b[2], b[3]] + b[4..36] + b[36..68] + b[68..76] + b[76..];
  }
}

/** `SESSION_CHECKPOINT_V1`: a ratchet state bound to a role and two identities. */
module SessionCheckpoint {
  import opened Prelude
  import opened Bytes
  import opened RatchetFields
  import Ratchet = RatchetCheckpoint

  const MAGIC: Bytes := [65, 82, 67, 83, 69, 83, 83]
  const VERSION: byte := 1
  const HEADER_LEN: nat := 149
  const MAX_LEN: nat := HEADER_LEN + Ratchet.MAX_LEN

  /** magic, version, role, generation, our key, peer key, AD, ratchet length */
  const WIDTHS: seq<nat> := [7, 1, 1, 8, 32, 32, 64, 4]

  datatype Binding = Binding(our: Key32, peer: Key32)

  datatype Session = Session(role: Role, generation: U64, our: Key32, peer: Key32, ad: Bytes, ratchet: Ratchet.RatchetBytes)

  datatype Error =
    | Truncated(actual: nat)
    | Oversized(actual: nat)
    | BadMagic
    | UnsupportedVersion(version: byte)
    | UnknownRole(role: byte)
    | OurIdentityMismatch
    | PeerIdentityMismatch
    | AdMismatch
    | LengthMismatch(expected: nat, actual: nat)
    | RatchetError(error: CheckpointError)

  function RoleByte(r: Role): byte {
    if r.Initiator? then 0 else 1
  }

  /** Initiator key, then responder key. */
  function ExpectedAd(role: Role, our: Key32, peer: Key32): (ad: Bytes)
    ensures |ad| == 64
  {
    if role.Initiator? then our + peer else peer + our
  }

  datatype Raw = Raw(magic: Bytes, version: byte, role: byte, generation: U64, our: Key32, peer: Key32,
                     ad: Bytes, length: U32, inner: Bytes)

  function RawParts(w: Raw): seq<Bytes> {
    [w.magic, [w.version], [w.role], ToBe(w.generation, 8), w.our, w.peer, w.ad, ToBe(w.length, 4), w.inner]
  }

  function FromParts(p: seq<Bytes>): (w: Raw)
    requires Fits(p, WIDTHS)
    ensures |w.magic| == 7 && |w.ad| == 64
  {
    Raw(p[0], p[1][0], p[2][0], U64At(p[3]), p[4], p[5], p[6], U32At(p[7]), p[8])
  }

  function Built(s: Session, inner: Bytes): Raw
    requires |inner| <= U32_MAX
  {
    Raw(MAGIC, VERSION, RoleByte(s.role), s.generation, s.our, s.peer, s.ad, |inner|, inner)
  }

  function Encode(s: Session): Result<Bytes, Error> {
    if s.ad != ExpectedAd(s.role, s.our, s.peer) then Err(Error.AdMismatch)
    else
      match Ratchet.Encode(s.ratchet)
      case Err(e) => Err(RatchetError(e))
      case Ok(inner) =>
        if |inner| > U32_MAX then Err(Error.Oversized(|inner|))
        else Ok(Join(RawParts(Built(s, inner))))
  }

  function Decode(record: Bytes, expected: Binding): Result<Session, Error> {
    if |record| > MAX_LEN then Err(Error.Oversized(|record|))
    else if |record| < HEADER_LEN then Err(Error.Truncated(|record|))
    else
      assert Sum(WIDTHS) == HEADER_LEN by { WidthsSum(); }
      Check(FromParts(Split(record, WIDTHS)), expected)
  }

  function Check(w: Raw, expected: Binding): Result<Session, Error> {
    if w.magic != MAGIC then Err(Error.BadMagic)
    else if w.version != VERSION then Err(Error.UnsupportedVersion(w.version))
    else if w.role > 1 then Err(UnknownRole(w.role))
    else
      var role := if w.role == 0 then Initiator else Responder;
      if w.our != expected.our then Err(OurIdentityMismatch)
      else if w.peer != expected.peer then Err(PeerIdentityMismatch)
      else if w.ad != ExpectedAd(role, w.our, w.peer) then Err(Error.AdMismatch)
      else if |w.inner| != w.length then Err(Error.LengthMismatch(HEADER_LEN + w.length, HEADER_LEN + |w.inner|))
      else
        match Ratchet.Decode(w.inner)
        case Err(e) => Err(RatchetError(e))
        case Ok(ratchet) => Ok(Session(role, w.generation, w.our, w.peer, w.ad, ratchet))
  }

  lemma WidthsSum()
    ensures Sum(WIDTHS) == HEADER_LEN
  {
    var w := [7, 1, 1, 8, 32, 32, 64, 4];
    assert w[1..] == [1, 1, 8, 32, 32, 64, 4];
    assert w[1..][1..] == [1, 8, 32, 32, 64, 4];
    assert [1, 8, 32, 32, 64, 4][1..] == [8, 32, 32, 64, 4];
    assert [8, 32, 32, 64, 4][1..] == [32, 32, 64, 4];
    assert [32, 32, 64, 4][1..] == [32, 64, 4];
    assert [32, 64, 4][1..] == [64, 4];
    assert [64, 4][1..] == [4];
  }

  lemma FromRawParts(w: Raw)
    requires |w.magic| == 7 && |w.ad| == 64
    ensures Fits(RawParts(w), WIDTHS) && FromParts(RawParts(w)) == w
  {
    U64RoundTrip(w.generation);
    U32RoundTrip(w.length);
  }

  /** The ratchet record of an accepted state is never longer than its limit. */
  lemma InnerLength(s: Ratchet.RatchetBytes)
    requires Ratchet.Encode(s).Ok?
    ensures |Ratchet.Encode(s).value| <= Ratchet.MAX_LEN
  {
    Ratchet.RawRoundTrip(Ratchet.RawOf(s));
  }

  lemma DecodeJoined(w: Raw, expected: Binding)
    requires |w.magic| == 7 && |w.ad| == 64 && |w.inner| <= Ratchet.MAX_LEN
    ensures Decode(Join(RawParts(w)), expected) == Check(w, expected)
  {
    WidthsSum();
    FromRawParts(w);
    SplitJoin(RawParts(w), WIDTHS);
  }

  lemma CheckBuilt(s: Session, inner: Bytes)
    requires s.ad == ExpectedAd(s.role, s.our, s.peer) && |inner| <= U32_MAX
    requires Ratchet.Decode(inner) == Ok(s.ratchet)
    ensures Check(Built(s, inner), Binding(s.our, s.peer)) == Ok(s)
  {
  }

  lemma EncodedBytes(s: Session)
    requires s.ad == ExpectedAd(s.role, s.our, s.peer) && Ratchet.Encode(s.ratchet).Ok?
    ensures |Ratchet.Encode(s.ratchet).value| <= Ratchet.MAX_LEN
    ensures Encode(s) == Ok(Join(RawParts(Built(s, Ratchet.Encode(s.ratchet).value))))
  {
    InnerLength(s.ratchet);
  }

  lemma EncodedDecodes(s: Session, inner: Bytes)
    requires s.ad == ExpectedAd(s.role, s.our, s.peer) && |inner| <= Ratchet.MAX_LEN
    requires Ratchet.Decode(inner) == Ok(s.ratchet)
    ensures Decode(Join(RawParts(Built(s, inner))), Binding(s.our, s.peer)) == Ok(s)
  {
    CheckBuilt(s, inner);
    DecodeJoined(Built(s, inner), Binding(s.our, s.peer));
  }

  /** Every session that can be encoded decodes, under its own binding, to
      itself; encoding fails only for a wrong AD or a refused ratchet. */
  lemma DecodeEncode(s: Session)
    requires DistinctKeys(s.ratchet.skipped)
    ensures Encode(s).Ok? <==> s.ad == ExpectedAd(s.role, s.our, s.peer) && Refusal(s.ratchet).None?
    ensures Encode(s).Ok? ==> Decode(Encode(s).value, Binding(s.our, s.peer)) == Ok(s)
  {
    if s.ad == ExpectedAd(s.role, s.our, s.peer) && Ratchet.Encode(s.ratchet).Ok? {
      Ratchet.DecodeEncode(s.ratchet);
      EncodedBytes(s);
      EncodedDecodes(s, Ratchet.Encode(s.ratchet).value);
    }
  }

  lemma PartsRoundTrip(p: seq<Bytes>)
    requires Fits(p, WIDTHS)
    ensures RawParts(FromParts(p)) == p
  {
    ToFromBe(p[3]);
    ToFromBe(p[7]);
    assert p[1] == [p[1][0]] && p[2] == [p[2][0]];
  }

  /** What an accepted header and body say about the session. */
  lemma Accepted(w: Raw, expected: Binding)
    requires Check(w, expected).Ok?
    ensures var s := Check(w, expected).value;
            && Ratchet.Decode(w.inner) == Ok(s.ratchet)
            && s.ad == ExpectedAd(s.role, s.our, s.peer)
            && w == Built(s, w.inner)
            && expected == Binding(s.our, s.peer)
  {
    hide Ratchet.Decode;
  }

  lemma DecodedFrom(record: Bytes, expected: Binding) returns (w: Raw)
    requires Decode(record, expected).Ok?
    ensures record == Join(RawParts(w))
    ensures forall other :: Decode(record, other) == Check(w, other)
  {
    WidthsSum();
    var p := Split(record, WIDTHS);
    w := FromParts(p);
    PartsRoundTrip(p);
    JoinSplit(record, WIDTHS);
  }

  /** Every accepted record is the encoding of the session it decodes to, and is
      accepted under that session's binding only. */
  lemma EncodeDecode(record: Bytes, expected: Binding)
    requires Decode(record, expected).Ok?
    ensures var s := Decode(record, expected).value;
            Encode(s) == Ok(record) && expected == Binding(s.our, s.peer)
    ensures forall other :: Decode(record, other).Ok? ==> other == expected
  {
    var w := DecodedFrom(record, expected);
    Accepted(w, expected);
    Ratchet.EncodeDecode(w.inner);
    EncodedBytes(Check(w, expected).value);
    forall other | Decode(record, other).Ok?
      ensures other == expected
    {
      Accepted(w, other);
    }
  }

  /** Both ends of a session store the same associated data. */
  lemma EndsShareAd(initiator: Key32, responder: Key32)
    ensures ExpectedAd(Initiator, initiator, responder) == ExpectedAd(Responder, responder, initiator)
    ensures forall a: Key32, b: Key32 ::
              ExpectedAd(Initiator, a, b) == ExpectedAd(Initiator, initiator, responder) ==> a == initiator && b == responder
  {
    forall a: Key32, b: Key32 | ExpectedAd(Initiator, a, b) == ExpectedAd(Initiator, initiator, responder)
      ensures a == initiator && b == responder
    {
      assert (a + b)[..32] == a && (a + b)[32..] == b;
      assert (initiator + responder)[..32] == initiator && (initiator + responder)[32..] == responder;
    }
  }
}

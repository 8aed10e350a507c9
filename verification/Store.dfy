/** What the encrypted store holds: session checkpoints and the records of
    `messaging/records.rs`. SHA-256 is injective, so a message id is its message
    and a record's digest is the record; the checkpoint codecs are bijections
    (`RatchetCheckpoint`, `SessionCheckpoint`), so a session record is its state. */
module StoreRecords {
  import opened Prelude
  import opened Bytes
  import opened RatchetFields
  import opened SymbolicKeys
  import opened RatchetModel
  import opened Staging

  /** The plaintext of a message, as the network layer lays it out. */
  datatype Payload =
    | Text(body: Bytes)
    | Receipt(ids: seq<MessageId>)
    | Opening
    | Unknown(bytes: Bytes)

  type MessageId = Wire<Payload>

  type ClientId = Bytes

  /** What an initiator sends first: public, and naming the prekeys it used. */
  datatype InitiatorHandshake =
    | InitiatorHandshake(identity: Identity, ephemeral: DhKey, signedPrekey: DhKey, oneTimePrekey: Option<DhKey>)
    | MalformedHandshake(bytes: Bytes)

  /** The responder's secrets; a one-time prekey is named by its identifier. */
  datatype Prekeys = Prekeys(signed: DhKey, oneTime: Option<DhKey>)

  datatype SessionState = SessionState(
    role: Role,
    generation: U64,
    our: Identity,
    peer: Identity,
    ad: Ad,
    ratchet: RatchetState)

  datatype OutgoingMessage = OutgoingMessage(id: MessageId, client: ClientId, generation: U64, wire: Wire<Payload>)

  datatype IncomingMessage = IncomingMessage(id: MessageId, generation: U64, plaintext: Payload)

  datatype StoreKey =
    | SessionKey(peer: Identity)
    | HandleKey(handle: nat)
    | HandshakeKey(peer: Identity)
    | ProvisionalKey(handle: nat)
    | OutboxKey(peer: Identity, id: MessageId)
    | InboxKey(peer: Identity, id: MessageId)
    | SeenKey(peer: Identity, id: MessageId)
    | SendIdKey(peer: Identity, client: ClientId)
    | PrekeysKey
    | OtherKey(name: string)

  /** A stored row. `Unreadable` is a row the store cannot authenticate. */
  datatype Record =
    | SessionRecord(session: SessionState)
    | HandleRecord(peer: Identity)
    | HandshakeRecord(handshake: InitiatorHandshake)
    | ProvisionalRecord(peer: Identity, handshake: InitiatorHandshake)
    | OutboxRecord(outgoing: OutgoingMessage)
    | InboxRecord(incoming: IncomingMessage)
    | SeenRecord(id: MessageId)
    | SentRecord(id: MessageId)
    | AbandonedRecord(id: MessageId)
    | PrekeyRecord(prekeys: Prekeys)
    | OtherRecord(bytes: Bytes)
    | Unreadable

  type Contents = map<StoreKey, Record>

  function Lookup(c: Contents, key: StoreKey): Option<Record> {
    if key in c then Some(c[key]) else None
  }

  /** Initiator key, then responder key. */
  function ExpectedAd(role: Role, our: Identity, peer: Identity): Ad {
    if role.Initiator? then Ad(our, peer) else Ad(peer, our)
  }

  datatype SessionError =
    | MalformedRecord
    | OurIdentityMismatch
    | PeerIdentityMismatch
    | AdMismatch
    | RatchetRecordError(error: CheckpointError)

  /** Reads a session record under the identities the caller expects. */
  function DecodeSession(record: Record, our: Identity, peer: Identity): Result<SessionState, SessionError> {
    if !record.SessionRecord? then Err(MalformedRecord)
    else
      var s := record.session;
      if s.our != our then Err(OurIdentityMismatch)
      else if s.peer != peer then Err(PeerIdentityMismatch)
      else if s.ad != ExpectedAd(s.role, our, peer) then Err(AdMismatch)
      else if !Resumable(s.ratchet) then Err(RatchetRecordError(Refusal(s.ratchet).value))
      else if !DistinctKeys(s.ratchet.skipped) then Err(RatchetRecordError(DuplicateSkippedKey))
      else Ok(s)
  }

  /** The session can be stored and read back under its own identities. */
  predicate Storable(s: SessionState) {
    DecodeSession(SessionRecord(s), s.our, s.peer) == Ok(s)
  }

  /** The session has accepted a message from its peer. */
  predicate Established(s: SessionState) {
    s.ratchet.ckr.Some?
  }

  /** A responder session exactly as an older build stored it on receiving a
      handshake, with nothing having happened to it since. */
  predicate LegacyUnconfirmed(s: SessionState) {
    && s.role.Responder?
    && s.generation == 0
    && s.ratchet.dhr.None? && s.ratchet.cks.None? && s.ratchet.ckr.None?
    && s.ratchet.ns == 0 && s.ratchet.nr == 0 && s.ratchet.pn == 0
    && s.ratchet.skipped == []
  }
}

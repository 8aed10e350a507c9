/** The transactions of `messaging.rs` and its submodules on one device's store:
    when each takes effect, and what it leaves. */
module MessengerModel {
  import opened Prelude
  import opened RatchetFields
  import opened SymbolicKeys
  import opened RatchetModel
  import opened Staging
  import opened StoreRecords
  import opened ConditionalWrites
  import opened DurableSessions

  const MAX_CLIENT_MESSAGE_ID_LEN := 64

  /** One device: its identity, and the local handle of each peer. */
  datatype Device = Device(our: Identity, handleOf: Identity -> nat)

  /** One attempted transaction. A `base` is the session its instance loaded and
      staged on; `prekeys` is the prekey record its instance read. */
  datatype Tx =
    | Create(peer: Identity, signedPrekey: DhKey, oneTime: Option<DhKey>, ephemeral: DhKey, dh: DhKey)
    | Accept(peer: Identity, handshake: InitiatorHandshake, prekeys: Prekeys, wire: Wire<Payload>,
             newDh: DhKey, newOneTime: DhKey)
    | Send(handle: nat, index: Identity, base: SessionState, client: ClientId, plaintext: Payload, nonce: nat)
    | Receive(base: SessionState, wire: Wire<Payload>, newDh: DhKey)
    | RecordHandshake(peer: Identity, handshake: InitiatorHandshake)
    | Retire(base: SessionState, handshake: InitiatorHandshake, prekeys: Prekeys)
    | Remove(base: SessionState)
    | AckOut(peer: Identity, id: MessageId)
    | Abandon(peer: Identity, id: MessageId)
    | AckIn(peer: Identity, id: MessageId)
    | EstablishPrekeys(signed: DhKey, newOneTime: DhKey)

  // ── What is staged ────────────────────────────────────────────────────────

  function NewInitiator(our: Identity, peer: Identity, signedPrekey: DhKey, oneTime: Option<DhKey>,
                        ephemeral: DhKey, dh: DhKey): SessionState
  {
    SessionState(Initiator, 0, our, peer, ExpectedAd(Initiator, our, peer),
                 InitAlice(Handshake(our, peer, ephemeral, signedPrekey, oneTime), signedPrekey, dh))
  }

  datatype PrekeyRefusal = StaleSignedPrekey | OneTimePrekeyUnavailable(id: DhKey) | OneTimePrekeyRequired

  /** Whether a responder holding `prekeys` can answer the handshake. */
  function CheckAnswerable(prekeys: Prekeys, handshake: InitiatorHandshake): Option<PrekeyRefusal>
    requires handshake.InitiatorHandshake?
  {
    if prekeys.signed != handshake.signedPrekey then Some(StaleSignedPrekey)
    else
      match (prekeys.oneTime, handshake.oneTimePrekey)
      case (Some(held), Some(named)) => if held == named then None else Some(OneTimePrekeyUnavailable(named))
      case (None, Some(named)) => Some(OneTimePrekeyUnavailable(named))
      case (Some(_), None) => Some(OneTimePrekeyRequired)
      case (None, None) => None
  }

  /** The responder's side of the handshake, before any message authenticates. */
  function Candidate(our: Identity, handshake: InitiatorHandshake, prekeys: Prekeys): SessionState
    requires handshake.InitiatorHandshake?
  {
    var seed := Handshake(handshake.identity, our, handshake.ephemeral, prekeys.signed, prekeys.oneTime);
    SessionState(Responder, 0, our, handshake.identity, ExpectedAd(Responder, our, handshake.identity),
                 InitBob(seed, prekeys.signed))
  }

  datatype Closed = Closed(next: SessionState, wire: Wire<Payload>)

  function StagedSend(base: SessionState, plaintext: Payload, nonce: nat): Option<Closed> {
    if base.generation == U64_MAX then None
    else
      match StageEncrypt(base.ratchet, plaintext, base.ad, nonce)
      case Err(_) => None
      case Ok(e) => Some(Closed(Successor(base, e.state), Wire(e.header, e.cipher)))
  }

  datatype Opened = Opened(next: SessionState, plaintext: Payload)

  function StagedReceive(base: SessionState, wire: Wire<Payload>, newDh: DhKey): Option<Opened> {
    if base.generation == U64_MAX || !WellFormed(base.ratchet) then None
    else
      match StageDecrypt(base.ratchet, wire.header, wire.cipher, base.ad, newDh)
      case Err(_) => None
      case Ok(d) => Some(Opened(Successor(base, d.state), d.plaintext))
  }

  /** What the instance checked before it attempted the transaction. `next` is
      the first key name nobody has used yet: new keys are fresh. */
  predicate Formed(d: Device, next: nat, tx: Tx) {
    match tx
    case Create(peer, signedPrekey, _, ephemeral, dh) =>
      signedPrekey < next <= ephemeral < dh
    case Accept(peer, handshake, prekeys, wire, newDh, newOneTime) =>
      && handshake.InitiatorHandshake? && handshake.identity == peer
      && CheckAnswerable(prekeys, handshake).None?
      && StagedReceive(Candidate(d.our, handshake, prekeys), wire, newDh).Some?
      && next <= newDh < newOneTime
    case Send(_, _, base, client, plaintext, nonce) =>
      && Storable(base) && base.our == d.our
      && 1 <= |client| <= MAX_CLIENT_MESSAGE_ID_LEN
      && StagedSend(base, plaintext, nonce).Some?
    case Receive(base, wire, newDh) =>
      && Storable(base) && base.our == d.our
      && StagedReceive(base, wire, newDh).Some?
      && next <= newDh
    case RecordHandshake(_, _) => true
    case Retire(base, _, _) => Storable(base) && base.our == d.our && LegacyUnconfirmed(base)
    case Remove(base) => Storable(base) && base.our == d.our && !Established(base)
    case AckOut(_, _) => true
    case Abandon(_, _) => true
    case AckIn(_, _) => true
    case EstablishPrekeys(signed, oneTime) => next <= signed < oneTime
  }

  /** The first unused key name after the transaction's own. */
  function NextAfter(next: nat, tx: Tx): nat {
    match tx
    case Create(_, _, _, _, dh) => dh + 1
    case Accept(_, _, _, _, _, newOneTime) => newOneTime + 1
    case Receive(_, _, newDh) => newDh + 1
    case EstablishPrekeys(_, oneTime) => oneTime + 1
    case _ => next
  }

  // ── When it takes effect, and what it leaves ──────────────────────────────

  /** Whether every condition the transaction checks holds of the version it
      runs against. */
  predicate Fires(d: Device, next: nat, c: Contents, tx: Tx)
    requires Formed(d, next, tx)
  {
    match tx
    case Create(peer, _, _, _, _) =>
      && SessionKey(peer) !in c && HandleKey(d.handleOf(peer)) !in c && HandshakeKey(peer) !in c
    case Accept(peer, handshake, prekeys, wire, _, _) =>
      && SessionKey(peer) !in c && HandleKey(d.handleOf(peer)) !in c
      && Lookup(c, ProvisionalKey(d.handleOf(peer))) == Some(ProvisionalRecord(peer, handshake))
      && InboxKey(peer, wire) !in c && SeenKey(peer, wire) !in c
      && (prekeys.oneTime.Some? ==> Lookup(c, PrekeysKey) == Some(PrekeyRecord(prekeys)))
    case Send(_, index, base, client, plaintext, nonce) =>
      && Lookup(c, SessionKey(base.peer)) == Some(SessionRecord(base))
      && OutboxKey(index, StagedSend(base, plaintext, nonce).value.wire) !in c
      && SendIdKey(index, client) !in c
    case Receive(base, wire, _) =>
      && Lookup(c, SessionKey(base.peer)) == Some(SessionRecord(base))
      && InboxKey(base.peer, wire) !in c && SeenKey(base.peer, wire) !in c
    case RecordHandshake(peer, handshake) =>
      && HandleKey(d.handleOf(peer)) !in c && SessionKey(peer) !in c
    case Retire(base, _, prekeys) =>
      && Lookup(c, SessionKey(base.peer)) == Some(SessionRecord(base))
      && Lookup(c, HandleKey(d.handleOf(base.peer))) == Some(HandleRecord(base.peer))
      && HandshakeKey(base.peer) !in c && ProvisionalKey(d.handleOf(base.peer)) !in c
      && Lookup(c, PrekeysKey) == Some(PrekeyRecord(prekeys))
    case Remove(base) =>
      Lookup(c, SessionKey(base.peer)) == Some(SessionRecord(base))
    case AckOut(peer, id) =>
      OutboxKey(peer, id) in c && !c[OutboxKey(peer, id)].Unreadable?
    case Abandon(peer, id) =>
      OutboxKey(peer, id) in c && DecodesOutbox(c[OutboxKey(peer, id)])
    case AckIn(peer, id) =>
      && InboxKey(peer, id) in c && c[InboxKey(peer, id)].InboxRecord?
      && c[InboxKey(peer, id)].incoming.id == id
    case EstablishPrekeys(_, _) => true
  }

  predicate DecodesOutbox(r: Record) {
    && r.OutboxRecord? && r.outgoing.wire == r.outgoing.id
    && 1 <= |r.outgoing.client| <= MAX_CLIENT_MESSAGE_ID_LEN
  }

  function Effect(d: Device, next: nat, c: Contents, tx: Tx): Contents
    requires Formed(d, next, tx) && Fires(d, next, c, tx)
  {
    match tx
    case Create(peer, signedPrekey, oneTime, ephemeral, dh) =>
      c[SessionKey(peer) := SessionRecord(NewInitiator(d.our, peer, signedPrekey, oneTime, ephemeral, dh))]
       [HandleKey(d.handleOf(peer)) := HandleRecord(peer)]
       [HandshakeKey(peer) := HandshakeRecord(InitiatorHandshake(d.our, ephemeral, signedPrekey, oneTime))]
    case Accept(peer, handshake, prekeys, wire, newDh, newOneTime) =>
      var staged := StagedReceive(Candidate(d.our, handshake, prekeys), wire, newDh).value;
      var accepted :=
        c[SessionKey(peer) := SessionRecord(staged.next)]
         [HandleKey(d.handleOf(peer)) := HandleRecord(peer)]
         - {ProvisionalKey(d.handleOf(peer))};
      var delivered := accepted[InboxKey(peer, wire) := InboxRecord(IncomingMessage(wire, staged.next.generation, staged.plaintext))];
      if prekeys.oneTime.None? then delivered
      else delivered[PrekeysKey := PrekeyRecord(Prekeys(prekeys.signed, Some(newOneTime)))]
    case Send(_, index, base, client, plaintext, nonce) =>
      var staged := StagedSend(base, plaintext, nonce).value;
      c[SessionKey(base.peer) := SessionRecord(staged.next)]
       [OutboxKey(index, staged.wire) := OutboxRecord(OutgoingMessage(staged.wire, client, staged.next.generation, staged.wire))]
       [SendIdKey(index, client) := SentRecord(staged.wire)]
    case Receive(base, wire, newDh) =>
      var staged := StagedReceive(base, wire, newDh).value;
      c[SessionKey(base.peer) := SessionRecord(staged.next)]
       [InboxKey(base.peer, wire) := InboxRecord(IncomingMessage(wire, staged.next.generation, staged.plaintext))]
    case RecordHandshake(peer, handshake) =>
      c[ProvisionalKey(d.handleOf(peer)) := ProvisionalRecord(peer, handshake)]
    case Retire(base, handshake, _) =>
      (c - {SessionKey(base.peer), HandleKey(d.handleOf(base.peer))})
       [ProvisionalKey(d.handleOf(base.peer)) := ProvisionalRecord(base.peer, handshake)]
    case Remove(base) =>
      c - {SessionKey(base.peer), HandleKey(d.handleOf(base.peer)), HandshakeKey(base.peer)}
    case AckOut(peer, id) =>
      c - {OutboxKey(peer, id)}
    case Abandon(peer, id) =>
      (c - {OutboxKey(peer, id)})[SendIdKey(peer, c[OutboxKey(peer, id)].outgoing.client) := AbandonedRecord(id)]
    case AckIn(peer, id) =>
      (c - {InboxKey(peer, id)})[SeenKey(peer, id) := SeenRecord(id)]
    case EstablishPrekeys(signed, oneTime) =>
      c[PrekeysKey := PrekeyRecord(Prekeys(signed, Some(oneTime)))]
  }

  /** The next version: the transaction's effect if it fires and is kept. */
  function After(d: Device, next: nat, c: Contents, tx: Tx, fault: Fault): Contents
    requires Formed(d, next, tx)
  {
    if Kept(fault) && Fires(d, next, c, tx) then Effect(d, next, c, tx) else c
  }
}

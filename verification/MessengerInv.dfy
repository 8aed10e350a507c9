/** What every transaction keeps true of one device's store. */
module MessengerInvariant {
  import opened Prelude
  import opened RatchetFields
  import opened SymbolicKeys
  import opened RatchetModel
  import opened Staging
  import opened StoreRecords
  import opened ConditionalWrites
  import opened DurableSessions
  import opened MessengerModel
  import Safety = RatchetSafety

  /** A stored session is the device's own, readable, and in one of the shapes
      the device creates; its sending key exists. */
  predicate GoodSession(d: Device, next: nat, p: Identity, s: SessionState) {
    && s.our == d.our && s.peer == p && s.ad == ExpectedAd(s.role, d.our, p)
    && Structural(s.ratchet) && Resumable(s.ratchet)
    && s.ratchet.dhs < next
    && (s.role.Responder? ==> Established(s) || LegacyUnconfirmed(s))
  }

  ghost predicate Sessions(d: Device, next: nat, c: Contents) {
    forall p :: SessionKey(p) in c ==>
      c[SessionKey(p)].SessionRecord? && GoodSession(d, next, p, c[SessionKey(p)].session)
  }

  /** Handle records are one-to-one with sessions. */
  ghost predicate Handles(d: Device, c: Contents) {
    && (forall p :: SessionKey(p) in c ==> Lookup(c, HandleKey(d.handleOf(p))) == Some(HandleRecord(p)))
    && (forall h :: HandleKey(h) in c ==>
          && c[HandleKey(h)].HandleRecord? && SessionKey(c[HandleKey(h)].peer) in c
          && h == d.handleOf(c[HandleKey(h)].peer))
  }

  predicate InitiatorSession(c: Contents, p: Identity) {
    SessionKey(p) in c && c[SessionKey(p)].SessionRecord? && c[SessionKey(p)].session.role.Initiator?
  }

  /** An initiator's handshake is stored exactly as long as its session. */
  ghost predicate Handshakes(c: Contents) {
    forall p :: HandshakeKey(p) in c <==> InitiatorSession(c, p)
  }

  predicate HasReceived(c: Contents, p: Identity) {
    SessionKey(p) in c && c[SessionKey(p)].SessionRecord? && Established(c[SessionKey(p)].session)
  }

  /** A pending message has its session, and its logical id names it. */
  ghost predicate Outbox(c: Contents) {
    forall p, id :: OutboxKey(p, id) in c ==>
      && SessionKey(p) in c
      && DecodesOutbox(c[OutboxKey(p, id)]) && c[OutboxKey(p, id)].outgoing.id == id
      && Lookup(c, SendIdKey(p, c[OutboxKey(p, id)].outgoing.client)) == Some(SentRecord(id))
  }

  predicate IsSendId(r: Record) {
    r.SentRecord? || r.AbandonedRecord?
  }

  /** The position of a sent message lies behind everything its session can
      still send. */
  predicate Spent(next: nat, c: Contents, p: Identity, h: Header) {
    && h.dh < next
    && (SessionKey(p) in c && c[SessionKey(p)].SessionRecord? && c[SessionKey(p)].session.ratchet.dhs == h.dh ==>
          h.n < c[SessionKey(p)].session.ratchet.ns)
  }

  ghost predicate SendIds(next: nat, c: Contents) {
    forall p, client :: SendIdKey(p, client) in c ==>
      && IsSendId(c[SendIdKey(p, client)])
      && Spent(next, c, p, c[SendIdKey(p, client)].id.header)
      && (c[SendIdKey(p, client)].AbandonedRecord? ==> OutboxKey(p, c[SendIdKey(p, client)].id) !in c)
  }

  predicate SamePosition(a: Header, b: Header) {
    a.dh == b.dh && a.n == b.n
  }

  /** No two logical messages to one peer ever share a position. */
  ghost predicate DistinctPositions(c: Contents) {
    forall p, a, b :: SendIdKey(p, a) in c && SendIdKey(p, b) in c && a != b
                      && IsSendId(c[SendIdKey(p, a)]) && IsSendId(c[SendIdKey(p, b)]) ==>
      !SamePosition(c[SendIdKey(p, a)].id.header, c[SendIdKey(p, b)].id.header)
  }

  /** Accepted messages belong to established sessions, and are either
      undelivered or acknowledged. */
  ghost predicate Incoming(c: Contents) {
    && (forall p, id :: InboxKey(p, id) in c ==>
          && HasReceived(c, p) && SeenKey(p, id) !in c
          && c[InboxKey(p, id)].InboxRecord? && c[InboxKey(p, id)].incoming.id == id)
    && (forall p, id :: SeenKey(p, id) in c ==> HasReceived(c, p) && c[SeenKey(p, id)] == SeenRecord(id))
  }

  ghost predicate Provisionals(d: Device, c: Contents) {
    forall h :: ProvisionalKey(h) in c ==>
      c[ProvisionalKey(h)].ProvisionalRecord? && h == d.handleOf(c[ProvisionalKey(h)].peer)
  }

  predicate HeldPrekeys(next: nat, c: Contents) {
    PrekeysKey in c ==>
      && c[PrekeysKey].PrekeyRecord? && c[PrekeysKey].prekeys.signed < next
      && (c[PrekeysKey].prekeys.oneTime.Some? ==> c[PrekeysKey].prekeys.oneTime.value < next)
  }

  ghost predicate SessionRows(d: Device, next: nat, c: Contents) {
    && Sessions(d, next, c)
    && Handles(d, c)
    && Handshakes(c)
    && Provisionals(d, c)
    && HeldPrekeys(next, c)
  }

  ghost predicate MessageRows(next: nat, c: Contents) {
    && Outbox(c)
    && SendIds(next, c)
    && DistinctPositions(c)
    && Incoming(c)
  }

  ghost predicate Inv(d: Device, next: nat, c: Contents) {
    SessionRows(d, next, c) && MessageRows(next, c)
  }

  ghost predicate NoPending(c: Contents, p: Identity) {
    forall id :: OutboxKey(p, id) !in c
  }

  /** What makes a transaction that fires safe: a send is recorded for the peer
      whose session it used, and a session is deleted with nothing pending. */
  ghost predicate Safe(c: Contents, tx: Tx) {
    match tx
    case Send(_, index, base, _, _, _) => index == base.peer
    case Retire(base, _, _) => NoPending(c, base.peer)
    case Remove(base) => NoPending(c, base.peer)
    case _ => true
  }

  // ── What staging does to a ratchet ────────────────────────────────────────

  lemma SendStaged(base: SessionState, plaintext: Payload, nonce: nat)
    requires Structural(base.ratchet) && Storable(base)
    requires StagedSend(base, plaintext, nonce).Some?
    ensures var s := StagedSend(base, plaintext, nonce).value;
            && s.next == base.(generation := base.generation + 1, ratchet := s.next.ratchet)
            && Structural(s.next.ratchet) && Resumable(s.next.ratchet)
            && s.next.ratchet.dhs == base.ratchet.dhs && s.next.ratchet.ns == base.ratchet.ns + 1
            && s.next.ratchet.ckr == base.ratchet.ckr
            && s.wire.header.dh == base.ratchet.dhs && s.wire.header.n == base.ratchet.ns
            && base.ratchet.cks.Some?
  {
    Safety.PerformKeepsStructure(base.ratchet, Safety.EncryptOp(plaintext, base.ad, nonce));
  }

  lemma ReceiveStaged(base: SessionState, wire: Wire<Payload>, newDh: DhKey)
    requires Structural(base.ratchet)
    requires StagedReceive(base, wire, newDh).Some?
    ensures var s := StagedReceive(base, wire, newDh).value;
            && s.next == base.(generation := base.generation + 1, ratchet := s.next.ratchet)
            && Structural(s.next.ratchet) && Resumable(s.next.ratchet)
            && Established(s.next)
            && (|| (s.next.ratchet.dhs == base.ratchet.dhs && s.next.ratchet.ns == base.ratchet.ns && Established(base))
                || s.next.ratchet.dhs == newDh)
  {
    Safety.PerformKeepsStructure(base.ratchet, Safety.DecryptOp(wire.header, wire.cipher, base.ad, newDh));
  }

  // ── Every transaction keeps the invariant ─────────────────────────────────

  lemma InvGrows(d: Device, next: nat, next': nat, c: Contents)
    requires Inv(d, next, c) && next <= next'
    ensures Inv(d, next', c)
  {
  }

  /** `t` may replace `s`: it is later in the same session. */
  predicate Later(next: nat, s: SessionState, t: SessionState) {
    && t == s.(generation := t.generation, ratchet := t.ratchet)
    && (Established(s) ==> Established(t))
    && ((t.ratchet.dhs == s.ratchet.dhs && t.ratchet.ns >= s.ratchet.ns) || t.ratchet.dhs >= next)
  }

  lemma AdvanceKeeps(d: Device, next: nat, next': nat, c: Contents, p: Identity, t: SessionState)
    requires Inv(d, next, c) && next <= next'
    requires SessionKey(p) in c && GoodSession(d, next', p, t) && Later(next, c[SessionKey(p)].session, t)
    ensures Inv(d, next', c[SessionKey(p) := SessionRecord(t)])
  {
  }

  lemma NewInitiatorRows(d: Device, next: nat, next': nat, c: Contents, t: SessionState, handshake: InitiatorHandshake)
    requires SessionRows(d, next, c) && next <= next'
    requires SessionKey(t.peer) !in c && HandleKey(d.handleOf(t.peer)) !in c
    requires t.role.Initiator? && GoodSession(d, next', t.peer, t)
    ensures SessionRows(d, next', c[SessionKey(t.peer) := SessionRecord(t)]
                                   [HandleKey(d.handleOf(t.peer)) := HandleRecord(t.peer)]
                                   [HandshakeKey(t.peer) := HandshakeRecord(handshake)])
  {
  }

  lemma NewInitiatorMessages(next: nat, next': nat, c: Contents, t: SessionState, h: nat, handshake: InitiatorHandshake)
    requires MessageRows(next, c) && next <= next' && SessionKey(t.peer) !in c && t.ratchet.dhs >= next
    ensures MessageRows(next', c[SessionKey(t.peer) := SessionRecord(t)][HandleKey(h) := HandleRecord(t.peer)]
                                [HandshakeKey(t.peer) := HandshakeRecord(handshake)])
  {
  }

  lemma NewResponderRows(d: Device, next: nat, next': nat, c: Contents, t: SessionState)
    requires SessionRows(d, next, c) && next <= next'
    requires SessionKey(t.peer) !in c && HandleKey(d.handleOf(t.peer)) !in c
    requires t.role.Responder? && GoodSession(d, next', t.peer, t)
    ensures SessionRows(d, next', c[SessionKey(t.peer) := SessionRecord(t)]
                                   [HandleKey(d.handleOf(t.peer)) := HandleRecord(t.peer)]
                                   - {ProvisionalKey(d.handleOf(t.peer))})
  {
  }

  lemma NewResponderMessages(next: nat, next': nat, c: Contents, t: SessionState, h: nat)
    requires MessageRows(next, c) && next <= next' && SessionKey(t.peer) !in c && t.ratchet.dhs >= next
    ensures MessageRows(next', c[SessionKey(t.peer) := SessionRecord(t)][HandleKey(h) := HandleRecord(t.peer)]
                               - {ProvisionalKey(h)})
  {
  }

  lemma DropSessionRows(d: Device, next: nat, c: Contents, p: Identity)
    requires SessionRows(d, next, c) && SessionKey(p) in c
    ensures SessionRows(d, next, c - {SessionKey(p), HandleKey(d.handleOf(p)), HandshakeKey(p)})
  {
  }

  /** Nothing is left behind by a session nothing is pending on, and nothing was
      received on. */
  lemma DropSessionMessages(next: nat, c: Contents, p: Identity, h: nat)
    requires MessageRows(next, c) && !HasReceived(c, p) && NoPending(c, p)
    ensures MessageRows(next, c - {SessionKey(p), HandleKey(h), HandshakeKey(p)})
  {
  }

  lemma ProvisionalKeeps(d: Device, next: nat, c: Contents, p: Identity, handshake: InitiatorHandshake)
    requires Inv(d, next, c)
    ensures Inv(d, next, c[ProvisionalKey(d.handleOf(p)) := ProvisionalRecord(p, handshake)])
  {
  }

  lemma PrekeysKeep(d: Device, next: nat, c: Contents, prekeys: Prekeys)
    requires Inv(d, next, c)
    requires prekeys.signed < next && (prekeys.oneTime.Some? ==> prekeys.oneTime.value < next)
    ensures Inv(d, next, c[PrekeysKey := PrekeyRecord(prekeys)])
  {
  }

  // Changes to message records only.

  lemma MessageKeysKeepRows(d: Device, next: nat, c: Contents, c': Contents)
    requires SessionRows(d, next, c)
    requires forall key: StoreKey ::
               key.SessionKey? || key.HandleKey? || key.HandshakeKey? || key.ProvisionalKey? || key.PrekeysKey? ==>
                 Lookup(c', key) == Lookup(c, key)
    ensures SessionRows(d, next, c')
  {
    assert forall p :: Lookup(c', SessionKey(p)) == Lookup(c, SessionKey(p));
    assert forall h :: Lookup(c', HandleKey(h)) == Lookup(c, HandleKey(h));
    assert forall p :: Lookup(c', HandshakeKey(p)) == Lookup(c, HandshakeKey(p));
    assert forall h :: Lookup(c', ProvisionalKey(h)) == Lookup(c, ProvisionalKey(h));
    assert Lookup(c', PrekeysKey) == Lookup(c, PrekeysKey);
  }

  /** Recording a message sent at a position nothing was sent at. */
  lemma AddSent(next: nat, c: Contents, p: Identity, m: OutgoingMessage)
    requires MessageRows(next, c) && SessionKey(p) in c && DecodesOutbox(OutboxRecord(m))
    requires SendIdKey(p, m.client) !in c && Spent(next, c, p, m.id.header)
    requires forall client :: SendIdKey(p, client) in c ==> !SamePosition(c[SendIdKey(p, client)].id.header, m.id.header)
    ensures MessageRows(next, c[OutboxKey(p, m.id) := OutboxRecord(m)][SendIdKey(p, m.client) := SentRecord(m.id)])
  {
  }

  lemma AddInbox(next: nat, c: Contents, p: Identity, m: IncomingMessage)
    requires MessageRows(next, c) && HasReceived(c, p)
    requires InboxKey(p, m.id) !in c && SeenKey(p, m.id) !in c
    ensures MessageRows(next, c[InboxKey(p, m.id) := InboxRecord(m)])
  {
  }

  lemma DropOutbox(next: nat, c: Contents, p: Identity, id: MessageId)
    requires MessageRows(next, c)
    ensures MessageRows(next, c - {OutboxKey(p, id)})
  {
  }

  lemma MarkAbandoned(next: nat, c: Contents, p: Identity, client: ClientId)
    requires MessageRows(next, c) && SendIdKey(p, client) in c
    requires OutboxKey(p, c[SendIdKey(p, client)].id) !in c
    ensures MessageRows(next, c[SendIdKey(p, client) := AbandonedRecord(c[SendIdKey(p, client)].id)])
  {
  }

  lemma MarkSeen(next: nat, c: Contents, p: Identity, id: MessageId)
    requires MessageRows(next, c) && InboxKey(p, id) in c
    ensures MessageRows(next, (c - {InboxKey(p, id)})[SeenKey(p, id) := SeenRecord(id)])
  {
  }

  // The transactions.

  lemma CreateKeeps(d: Device, next: nat, next': nat, c: Contents, tx: Tx)
    requires tx.Create? && Inv(d, next, c) && Formed(d, next, tx) && Fires(d, next, c, tx) && NextAfter(next, tx) <= next'
    ensures Inv(d, next', Effect(d, next, c, tx))
  {
    hide SessionRows, MessageRows;
    var t := NewInitiator(d.our, tx.peer, tx.signedPrekey, tx.oneTime, tx.ephemeral, tx.dh);
    var handshake := InitiatorHandshake(d.our, tx.ephemeral, tx.signedPrekey, tx.oneTime);
    NewInitiatorRows(d, next, next', c, t, handshake);
    NewInitiatorMessages(next, next', c, t, d.handleOf(tx.peer), handshake);
  }

  lemma AcceptKeeps(d: Device, next: nat, next': nat, c: Contents, tx: Tx)
    requires tx.Accept? && Inv(d, next, c) && Formed(d, next, tx) && Fires(d, next, c, tx) && NextAfter(next, tx) <= next'
    ensures Inv(d, next', Effect(d, next, c, tx))
  {
    assert HeldPrekeys(next, c);
    hide SessionRows, MessageRows;
    var base := Candidate(d.our, tx.handshake, tx.prekeys);
    var staged := StagedReceive(base, tx.wire, tx.newDh).value;
    ReceiveStaged(base, tx.wire, tx.newDh);
    var t, h := staged.next, d.handleOf(tx.peer);
    var accepted := c[SessionKey(t.peer) := SessionRecord(t)][HandleKey(h) := HandleRecord(t.peer)] - {ProvisionalKey(h)};
    NewResponderRows(d, next, next', c, t);
    NewResponderMessages(next, next', c, t, h);
    var m := IncomingMessage(tx.wire, t.generation, staged.plaintext);
    var delivered := accepted[InboxKey(t.peer, tx.wire) := InboxRecord(m)];
    AddInbox(next', accepted, t.peer, m);
    MessageKeysKeepRows(d, next', accepted, delivered);
    if tx.prekeys.oneTime.Some? {
      PrekeysKeep(d, next', delivered, Prekeys(tx.prekeys.signed, Some(tx.newOneTime)));
    }
  }

  lemma SendKeeps(d: Device, next: nat, next': nat, c: Contents, tx: Tx)
    requires tx.Send? && Inv(d, next, c) && Formed(d, next, tx) && Fires(d, next, c, tx) && next <= next'
    requires tx.index == tx.base.peer
    ensures Inv(d, next', Effect(d, next, c, tx))
  {
    var base, p := tx.base, tx.base.peer;
    assert GoodSession(d, next, p, base);
    SendStaged(base, tx.plaintext, tx.nonce);
    var staged := StagedSend(base, tx.plaintext, tx.nonce).value;
    var advanced := c[SessionKey(p) := SessionRecord(staged.next)];
    var m := OutgoingMessage(staged.wire, tx.client, staged.next.generation, staged.wire);
    assert forall client :: SendIdKey(p, client) in c ==> !SamePosition(c[SendIdKey(p, client)].id.header, m.id.header);
    AdvanceKeeps(d, next, next', c, p, staged.next);
    hide SessionRows, MessageRows;
    AddSent(next', advanced, p, m);
    MessageKeysKeepRows(d, next', advanced, Effect(d, next, c, tx));
  }

  lemma ReceiveKeeps(d: Device, next: nat, next': nat, c: Contents, tx: Tx)
    requires tx.Receive? && Inv(d, next, c) && Formed(d, next, tx) && Fires(d, next, c, tx) && NextAfter(next, tx) <= next'
    ensures Inv(d, next', Effect(d, next, c, tx))
  {
    var base, p := tx.base, tx.base.peer;
    assert GoodSession(d, next, p, base);
    ReceiveStaged(base, tx.wire, tx.newDh);
    var staged := StagedReceive(base, tx.wire, tx.newDh).value;
    var advanced := c[SessionKey(p) := SessionRecord(staged.next)];
    AdvanceKeeps(d, next, next', c, p, staged.next);
    hide SessionRows, MessageRows;
    AddInbox(next', advanced, p, IncomingMessage(tx.wire, staged.next.generation, staged.plaintext));
    MessageKeysKeepRows(d, next', advanced, Effect(d, next, c, tx));
  }

  lemma RemovalKeeps(d: Device, next: nat, next': nat, c: Contents, tx: Tx)
    requires tx.Remove? || tx.Retire?
    requires Inv(d, next, c) && Formed(d, next, tx) && Fires(d, next, c, tx) && next <= next'
    requires NoPending(c, tx.base.peer)
    ensures Inv(d, next', Effect(d, next, c, tx))
  {
    var p, h := tx.base.peer, d.handleOf(tx.base.peer);
    hide SessionRows, MessageRows;
    InvGrows(d, next, next', c);
    DropSessionRows(d, next', c, p);
    DropSessionMessages(next', c, p, h);
    var dropped := c - {SessionKey(p), HandleKey(h), HandshakeKey(p)};
    if tx.Retire? {
      assert dropped == c - {SessionKey(p), HandleKey(h)};
      ProvisionalKeeps(d, next', dropped, p, tx.handshake);
    }
  }

  lemma AbandonKeeps(d: Device, next: nat, c: Contents, tx: Tx)
    requires tx.Abandon? && Inv(d, next, c) && Fires(d, next, c, tx)
    ensures Inv(d, next, Effect(d, next, c, tx))
  {
    var client := c[OutboxKey(tx.peer, tx.id)].outgoing.client;
    assert Lookup(c, SendIdKey(tx.peer, client)) == Some(SentRecord(tx.id));
    hide SessionRows, MessageRows;
    DropOutbox(next, c, tx.peer, tx.id);
    MarkAbandoned(next, c - {OutboxKey(tx.peer, tx.id)}, tx.peer, client);
    MessageKeysKeepRows(d, next, c, Effect(d, next, c, tx));
  }

  lemma AcknowledgeKeeps(d: Device, next: nat, c: Contents, tx: Tx)
    requires tx.AckOut? || tx.AckIn?
    requires Inv(d, next, c) && Fires(d, next, c, tx)
    ensures Inv(d, next, Effect(d, next, c, tx))
  {
    hide SessionRows, MessageRows;
    if tx.AckOut? {
      DropOutbox(next, c, tx.peer, tx.id);
    } else {
      MarkSeen(next, c, tx.peer, tx.id);
    }
    MessageKeysKeepRows(d, next, c, Effect(d, next, c, tx));
  }

  /** Every safe transaction keeps the store's invariant, whatever happens to its
      commit. */
  lemma StepKeeps(d: Device, next: nat, next': nat, c: Contents, tx: Tx, fault: Fault)
    requires Inv(d, next, c) && Formed(d, next, tx) && NextAfter(next, tx) <= next' && next <= next'
    requires Fires(d, next, c, tx) ==> Safe(c, tx)
    ensures Inv(d, next', After(d, next, c, tx, fault))
  {
    hide SessionRows, MessageRows;
    InvGrows(d, next, next', c);
    if Kept(fault) && Fires(d, next, c, tx) {
      match tx
      case Create(_, _, _, _, _) => CreateKeeps(d, next, next', c, tx);
      case Accept(_, _, _, _, _, _) => AcceptKeeps(d, next, next', c, tx);
      case Send(_, _, _, _, _, _) => SendKeeps(d, next, next', c, tx);
      case Receive(_, _, _) => ReceiveKeeps(d, next, next', c, tx);
      case Retire(_, _, _) => RemovalKeeps(d, next, next', c, tx);
      case Remove(_) => RemovalKeeps(d, next, next', c, tx);
      case RecordHandshake(peer, handshake) => ProvisionalKeeps(d, next', c, peer, handshake);
      case EstablishPrekeys(signed, oneTime) => PrekeysKeep(d, next', c, Prekeys(signed, Some(oneTime)));
      case Abandon(_, _) => AbandonKeeps(d, next', c, tx);
      case _ => AcknowledgeKeeps(d, next', c, tx);
    }
  }
}

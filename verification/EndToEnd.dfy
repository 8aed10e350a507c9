/** Two devices, each with its own store and any number of instances, talking
    through a relay that may lose, reorder, repeat and forge: what one records as
    acknowledged, the other holds. */
module PairedSessions {
  import opened Prelude
  import opened RatchetFields
  import opened SymbolicKeys
  import opened RatchetModel
  import opened Staging
  import opened StoreRecords
  import TP = TwoParty
  import Runs = TwoPartyRuns

  type Session = TP.Session<Payload>

  /** `w` is what party `p` sent at the position its header names. */
  predicate SentIn(s: Session, p: TP.Party, w: MessageId) {
    var pos := TP.Position(w.header.dh, w.header.n);
    pos in s.At(p).sent && s.At(p).sent[pos] == w
  }

  lemma SentIsSealed(s: Session, p: TP.Party, w: MessageId)
    requires TP.Inv(s) && SentIn(s, p, w)
    ensures w.cipher.Sealed? && KeySeed(w.cipher.key) == s.seed
  {
    var pos := TP.Position(w.header.dh, w.header.n);
    var e := TP.SentInfo(s.seed, s.ad, s.keys, s.counts, p, s.At(p).sent, pos);
    TP.KeyAtSeed(s.seed, s.keys, e, pos.n);
  }

  lemma RatchetHasSeed(s: Session, p: TP.Party)
    requires TP.Inv(s)
    ensures RootSeed(s.At(p).r.rk) == s.seed
  {
    TP.RootAtSeed(s.seed, s.keys, s.At(p).epoch + 1);
  }

  lemma EncryptedIs(r: RatchetState, plaintext: Payload, ad: Ad, nonce: nat)
    requires StageEncrypt(r, plaintext, ad, nonce).Ok?
    ensures var e := StageEncrypt(r, plaintext, ad, nonce).value;
            e.cipher.Sealed? && e.cipher.plaintext == plaintext
  {
  }

  lemma DecryptedIs(r: RatchetState, w: MessageId, ad: Ad, newDh: DhKey)
    requires WellFormed(r) && StageDecrypt(r, w.header, w.cipher, ad, newDh).Ok?
    ensures Decrypt(r, w.header, w.cipher, ad, newDh).result
            == Ok(StageDecrypt(r, w.header, w.cipher, ad, newDh).value.plaintext)
  {
  }

  /** One side's send, as the other layers see it. */
  lemma SendOne(s: Session, p: TP.Party, plaintext: Payload, nonce: nat)
    requires TP.Inv(s) && StageEncrypt(s.At(p).r, plaintext, s.ad, nonce).Ok?
    ensures var (t, e) := (TP.SendStep(s, p, plaintext, nonce), StageEncrypt(s.At(p).r, plaintext, s.ad, nonce).value);
            var w := Wire(e.header, e.cipher);
            && TP.Inv(t) && t.seed == s.seed && t.ad == s.ad && t.keys == s.keys
            && t.At(p).r == e.state && t.At(TP.Peer(p)) == s.At(TP.Peer(p))
            && SentIn(t, p, w)
            && (forall v :: SentIn(s, p, v) ==> SentIn(t, p, v))
            && (forall v :: SentIn(t, p, v) ==> v == w || SentIn(s, p, v))
            && w.cipher.Sealed? && w.cipher.plaintext == plaintext
  {
    hide TP.Inv, StageEncrypt;
    EncryptedIs(s.At(p).r, plaintext, s.ad, nonce);
    TP.SendKeeps(s, p, plaintext, nonce);
    Runs.NextPositionIsUnused(s, p);
    Runs.SendMoves(s, p, plaintext, nonce);
  }

  /** One side's successful delivery of something the network can produce. */
  lemma DeliverOne(s: Session, p: TP.Party, w: MessageId, newDh: DhKey)
    requires TP.Inv(s) && TP.Producible(s, w.cipher) && newDh !in s.keys && WellFormed(s.At(p).r)
    requires StageDecrypt(s.At(p).r, w.header, w.cipher, s.ad, newDh).Ok?
    ensures var (t, d) := (TP.DeliverStep(s, p, w.header, w.cipher, newDh),
                           StageDecrypt(s.At(p).r, w.header, w.cipher, s.ad, newDh).value);
            && TP.Inv(t) && t.seed == s.seed && t.ad == s.ad
            && (forall k :: k in t.keys ==> k in s.keys || k == newDh)
            && t.At(p).r == d.state && t.At(TP.Peer(p)) == s.At(TP.Peer(p)) && t.At(p).sent == s.At(p).sent
            && SentIn(s, TP.Peer(p), w) && w.cipher.Sealed? && d.plaintext == w.cipher.plaintext
  {
    hide TP.Inv, StageDecrypt, Decrypt, TP.Producible, WellFormed, TP.Turns, TP.Drops;
    DecryptedIs(s.At(p).r, w, s.ad, newDh);
    TP.DeliverKeeps(s, p, w.header, w.cipher, newDh);
    TP.DecryptIsAuthentic(s, p, w.header, w.cipher, newDh);
    Runs.DeliveredMoves(s, p, w.header, w.cipher, newDh);
  }
}

/** The invariant of two devices and the network between them. */
module EndToEnd {
  import opened Prelude
  import opened RatchetFields
  import opened SymbolicKeys
  import opened RatchetModel
  import opened Staging
  import opened StoreRecords
  import opened ConditionalWrites
  import opened DurableSessions
  import opened MessengerModel
  import opened MessengerInvariant
  import opened MessengerGuarantees
  import opened PairedSessions
  import TP = TwoParty

  /** Every session either device started with the other, by its X3DH secret:
      both ends as the protocol sees them. */
  type Pairs = map<Seed, Session>

  predicate PairSeed(x: Identity, y: Identity, seed: Seed) {
    && seed.Handshake?
    && ((seed.initiator == x && seed.responder == y) || (seed.initiator == y && seed.responder == x))
  }

  function PartyFor(x: Identity, seed: Seed): TP.Party
    requires seed.Handshake?
  {
    if seed.initiator == x then TP.Alice else TP.Bob
  }

  ghost predicate Sound(x: Identity, y: Identity, next: nat, pairs: Pairs) {
    forall seed :: seed in pairs ==>
      && PairSeed(x, y, seed) && seed.ephemeral < next
      && TP.Inv(pairs[seed]) && pairs[seed].seed == seed && pairs[seed].ad == Ad(seed.initiator, seed.responder)
      && forall k :: k in pairs[seed].keys ==> k < next
  }

  /** `x` sent `w` to the other in some session. */
  ghost predicate SentWire(pairs: Pairs, x: Identity, w: MessageId) {
    exists seed :: SentUnder(pairs, seed, x, w)
  }

  predicate SentUnder(pairs: Pairs, seed: Seed, x: Identity, w: MessageId) {
    seed in pairs && seed.Handshake? && SentIn(pairs[seed], PartyFor(x, seed), w)
  }

  predicate AcceptedAt(c: Contents, y: Identity, id: MessageId) {
    InboxKey(y, id) in c || SeenKey(y, id) in c
  }

  /** The stored session is one end of its pair. */
  predicate Linked(x: Identity, y: Identity, c: Contents, pairs: Pairs) {
    SessionKey(y) in c && c[SessionKey(y)].SessionRecord? ==>
      var t := c[SessionKey(y)].session;
      var seed := RootSeed(t.ratchet.rk);
      && seed in pairs && seed.Handshake?
      && pairs[seed].At(PartyFor(x, seed)).r == t.ratchet && pairs[seed].ad == t.ad
      && (t.role.Initiator? <==> seed.initiator == x)
      && (t.role.Responder? ==> Established(t))
  }

  function FreshBob(seed: Seed): TP.Side<Payload>
    requires seed.Handshake?
  {
    TP.Side(InitBob(seed, seed.signedPrekey), 0, map[], {}, {})
  }

  predicate HoldsSession(c: Contents, y: Identity, seed: Seed) {
    SessionKey(y) in c && c[SessionKey(y)].SessionRecord? && RootSeed(c[SessionKey(y)].session.ratchet.rk) == seed
  }

  /** A responder side nobody accepted yet is as it starts. */
  ghost predicate Untouched(x: Identity, y: Identity, c: Contents, pairs: Pairs) {
    forall seed :: seed in pairs && seed.Handshake? && seed.responder == x && !HoldsSession(c, y, seed) ==>
      pairs[seed].bob == FreshBob(seed)
  }

  ghost predicate Committed(x: Identity, y: Identity, c: Contents, pairs: Pairs) {
    forall client :: SendIdKey(y, client) in c && IsSendId(c[SendIdKey(y, client)]) ==>
      SentWire(pairs, x, c[SendIdKey(y, client)].id)
  }

  ghost predicate HasRecord(c: Contents, y: Identity, w: MessageId) {
    exists client :: BoundTo(c, y, client, w)
  }

  /** And whatever `x` sent is still on record under a logical id. */
  ghost predicate OnRecord(x: Identity, y: Identity, c: Contents, pairs: Pairs) {
    forall w :: SentWire(pairs, x, w) ==> HasRecord(c, y, w)
  }

  /** A receipt `x` sends lists only messages `x` holds. */
  ghost predicate Truthful(x: Identity, y: Identity, c: Contents, pairs: Pairs) {
    forall w, id :: SentWire(pairs, x, w) && w.cipher.Sealed? && w.cipher.plaintext.Receipt?
                    && id in w.cipher.plaintext.ids ==>
      AcceptedAt(c, y, id)
  }

  /** What `x` accepted from `y` is what `y` sent. */
  ghost predicate Genuine(y: Identity, c: Contents, pairs: Pairs) {
    && (forall id :: AcceptedAt(c, y, id) ==> SentWire(pairs, y, id))
    && AsSealed(y, c)
  }

  /** An undelivered message holds the plaintext its ciphertext was sealed with. */
  ghost predicate AsSealed(y: Identity, c: Contents) {
    forall id :: InboxKey(y, id) in c && c[InboxKey(y, id)].InboxRecord? ==>
      id.cipher.Sealed? && c[InboxKey(y, id)].incoming.plaintext == id.cipher.plaintext
  }

  /** Receipts are sent under ids of their own, and are not acknowledged by the
      peer: the network layer forgets them once published. */
  predicate ReceiptClient(client: ClientId) {
    |client| > 0 && client[0] == 114
  }

  /** What `x` has as acknowledged, the other holds. */
  ghost predicate AckSound(x: Identity, y: Identity, cx: Contents, cy: Contents) {
    forall client :: SendIdKey(y, client) in cx && cx[SendIdKey(y, client)].SentRecord? && !ReceiptClient(client)
                     && OutboxKey(y, cx[SendIdKey(y, client)].id) !in cx ==>
      AcceptedAt(cy, x, cx[SendIdKey(y, client)].id)
  }

  ghost predicate Half(x: Identity, y: Identity, cx: Contents, cy: Contents, pairs: Pairs) {
    && Linked(x, y, cx, pairs)
    && Untouched(x, y, cx, pairs)
    && Committed(x, y, cx, pairs)
    && OnRecord(x, y, cx, pairs)
    && Truthful(x, y, cx, pairs)
    && Genuine(y, cx, pairs)
    && AckSound(x, y, cx, cy)
  }

  ghost predicate World(x: Identity, y: Identity, next: nat, cx: Contents, cy: Contents, pairs: Pairs) {
    && Sound(x, y, next, pairs)
    && Half(x, y, cx, cy, pairs)
    && Half(y, x, cy, cx, pairs)
  }

  // ── What the network can deliver ──────────────────────────────────────────

  ghost predicate StoredCipher(c: Contents, y: Identity, cipher: Cipher<Payload>) {
    exists client :: SendIdKey(y, client) in c && IsSendId(c[SendIdKey(y, client)]) && c[SendIdKey(y, client)].id.cipher == cipher
  }

  /** Anything at all, except a ciphertext under a key of a session between the
      two that neither has committed. */
  ghost predicate Deliverable(x: Identity, y: Identity, cx: Contents, cy: Contents, cipher: Cipher<Payload>) {
    cipher.Sealed? && PairSeed(x, y, KeySeed(cipher.key)) ==> StoredCipher(cx, y, cipher) || StoredCipher(cy, x, cipher)
  }

  lemma SentUnderSealed(x: Identity, y: Identity, next: nat, pairs: Pairs, seed: Seed, p: Identity, w: MessageId)
    requires Sound(x, y, next, pairs) && SentUnder(pairs, seed, p, w)
    ensures w.cipher.Sealed? && KeySeed(w.cipher.key) == seed
  {
    SentIsSealed(pairs[seed], PartyFor(p, seed), w);
  }

  /** A ciphertext of one of the pairs was sent under that very pair. */
  lemma DeliverableWasSent(x: Identity, y: Identity, next: nat, cx: Contents, cy: Contents, pairs: Pairs, cipher: Cipher<Payload>)
    requires x != y && World(x, y, next, cx, cy, pairs) && Deliverable(x, y, cx, cy, cipher)
    requires cipher.Sealed? && PairSeed(x, y, KeySeed(cipher.key))
    ensures KeySeed(cipher.key) in pairs
    ensures exists p, w :: (p == x || p == y) && SentUnder(pairs, KeySeed(cipher.key), p, w) && w.cipher == cipher
  {
    var p, w;
    hide TP.Inv;
    if StoredCipher(cx, y, cipher) {
      var client :| SendIdKey(y, client) in cx && IsSendId(cx[SendIdKey(y, client)]) && cx[SendIdKey(y, client)].id.cipher == cipher;
      p, w := x, cx[SendIdKey(y, client)].id;
    } else {
      var client :| SendIdKey(x, client) in cy && IsSendId(cy[SendIdKey(x, client)]) && cy[SendIdKey(x, client)].id.cipher == cipher;
      p, w := y, cy[SendIdKey(x, client)].id;
    }
    assert SentWire(pairs, p, w);
    var seed :| SentUnder(pairs, seed, p, w);
    SentUnderSealed(x, y, next, pairs, seed, p, w);
  }

  lemma DeliverableIsProducible(x: Identity, y: Identity, next: nat, cx: Contents, cy: Contents, pairs: Pairs,
                                cipher: Cipher<Payload>, seed: Seed)
    requires x != y && World(x, y, next, cx, cy, pairs) && Deliverable(x, y, cx, cy, cipher) && seed in pairs
    ensures TP.Producible(pairs[seed], cipher)
  {
    hide TP.Inv;
    if cipher.Sealed? && KeySeed(cipher.key) == seed {
      DeliverableWasSent(x, y, next, cx, cy, pairs, cipher);
      var p, w :| (p == x || p == y) && SentUnder(pairs, seed, p, w) && w.cipher == cipher;
      assert TP.SentCipher(pairs[seed], PartyFor(p, seed), TP.Position(w.header.dh, w.header.n), cipher);
    }
  }

  // ── What one device's step does to the pairs ─────────────────────────────

  lemma Opposite(x: Identity, y: Identity, seed: Seed)
    requires x != y && PairSeed(x, y, seed)
    ensures PartyFor(y, seed) == TP.Peer(PartyFor(x, seed)) && PartyFor(x, seed) == TP.Peer(PartyFor(y, seed))
  {
  }

  /** Only `x`'s ends moved, and what `x` sent stays sent; a new pair is one `x`
      just started. */
  ghost predicate OnlyMoves(x: Identity, y: Identity, pairs: Pairs, pairs': Pairs) {
    && (forall seed :: seed in pairs && seed.Handshake? ==>
          && seed in pairs' && pairs'[seed].ad == pairs[seed].ad
          && pairs'[seed].At(PartyFor(y, seed)) == pairs[seed].At(PartyFor(y, seed)))
    && (forall seed :: seed in pairs' && seed !in pairs ==>
          && seed.Handshake? && seed.initiator == x && seed.responder == y
          && pairs'[seed].bob == FreshBob(seed) && pairs'[seed].alice.sent == map[])
    && (forall w :: SentWire(pairs, x, w) ==> SentWire(pairs', x, w))
  }

  lemma PeerSendsNothing(x: Identity, y: Identity, next: nat, pairs: Pairs, pairs': Pairs, w: MessageId)
    requires x != y && Sound(x, y, next, pairs) && OnlyMoves(x, y, pairs, pairs')
    ensures SentWire(pairs', y, w) <==> SentWire(pairs, y, w)
  {
    hide TP.Inv;
    if SentWire(pairs', y, w) {
      var seed :| SentUnder(pairs', seed, y, w);
      assert SentUnder(pairs, seed, y, w);
    }
    if SentWire(pairs, y, w) {
      var seed :| SentUnder(pairs, seed, y, w);
      assert SentUnder(pairs', seed, y, w);
    }
  }

  /** The other device's half survives any step of `x` that accepts no less. */
  lemma PeerHalfKeeps(x: Identity, y: Identity, next: nat, cx: Contents, cx': Contents, cy: Contents, pairs: Pairs, pairs': Pairs)
    requires x != y && Sound(x, y, next, pairs) && Half(y, x, cy, cx, pairs) && OnlyMoves(x, y, pairs, pairs')
    requires forall id :: AcceptedAt(cx, y, id) ==> AcceptedAt(cx', y, id)
    ensures Half(y, x, cy, cx', pairs')
  {
    hide TP.Inv;
    assert Untouched(y, x, cy, pairs') by {
      forall seed | seed in pairs' && seed.Handshake? && seed.responder == y && !HoldsSession(cy, x, seed)
        ensures pairs'[seed].bob == FreshBob(seed)
      {
        if seed in pairs {
          assert PairSeed(x, y, seed);
        }
      }
    }
    forall w
      ensures SentWire(pairs', y, w) <==> SentWire(pairs, y, w)
    {
      PeerSendsNothing(x, y, next, pairs, pairs', w);
    }
  }

  /** `x`'s end of `seed` moved to `t`'s. */
  lemma MovedPair(x: Identity, y: Identity, next: nat, next': nat, pairs: Pairs, seed: Seed, t: Session)
    requires x != y && Sound(x, y, next, pairs) && seed in pairs && next <= next'
    requires TP.Inv(t) && t.seed == seed && t.ad == pairs[seed].ad && forall k :: k in t.keys ==> k < next'
    requires t.At(PartyFor(y, seed)) == pairs[seed].At(PartyFor(y, seed))
    requires forall w :: SentIn(pairs[seed], PartyFor(x, seed), w) ==> SentIn(t, PartyFor(x, seed), w)
    ensures Sound(x, y, next', pairs[seed := t]) && OnlyMoves(x, y, pairs, pairs[seed := t])
  {
    hide TP.Inv;
    forall w | SentWire(pairs, x, w)
      ensures SentWire(pairs[seed := t], x, w)
    {
      var at :| SentUnder(pairs, at, x, w);
      assert SentUnder(pairs[seed := t], at, x, w);
    }
  }

  lemma StartIs(seed: Seed, ad: Ad, dh: DhKey)
    requires seed.Handshake? && seed.signedPrekey < dh
    ensures var t := TP.Start<Payload>(seed, ad, seed.signedPrekey, dh);
            && TP.Inv(t) && t.seed == seed && t.ad == ad && t.keys == [seed.signedPrekey, dh]
            && t.alice.r == InitAlice(seed, seed.signedPrekey, dh) && t.alice.sent == map[]
            && t.bob == FreshBob(seed)
  {
    TP.StartInv<Payload>(seed, ad, seed.signedPrekey, dh);
  }

  /** A pair `x` just started. */
  lemma StartedPair(x: Identity, y: Identity, next: nat, next': nat, pairs: Pairs, seed: Seed, dh: DhKey)
    requires x != y && Sound(x, y, next, pairs) && seed.Handshake? && seed.initiator == x && seed.responder == y
    requires seed.signedPrekey < next <= seed.ephemeral < dh < next'
    ensures var pairs' := pairs[seed := TP.Start(seed, Ad(x, y), seed.signedPrekey, dh)];
            seed !in pairs && Sound(x, y, next', pairs') && OnlyMoves(x, y, pairs, pairs')
  {
    hide TP.Inv, TP.Start, FreshBob;
    StartIs(seed, Ad(x, y), dh);
    var pairs' := pairs[seed := TP.Start(seed, Ad(x, y), seed.signedPrekey, dh)];
    assert seed !in pairs;
    forall w | SentWire(pairs, x, w)
      ensures SentWire(pairs', x, w)
    {
      var at :| SentUnder(pairs, at, x, w);
      assert SentUnder(pairs', at, x, w);
    }
  }

  // ── Steps that leave the pairs alone ──────────────────────────────────────

  /** An acknowledgement of a message that is not a receipt is justified: the
      peer holds it. */
  ghost predicate AckJustified(x: Identity, y: Identity, cx: Contents, cy: Contents, id: MessageId) {
    OutboxKey(y, id) in cx && cx[OutboxKey(y, id)].OutboxRecord? && !ReceiptClient(cx[OutboxKey(y, id)].outgoing.client) ==>
      AcceptedAt(cy, x, id)
  }

  /** What the network layer and the network together allow of a step: receipts
      name accepted messages, acknowledgements follow receipts, and whatever is
      decrypted could be delivered. */
  ghost predicate Allowed(x: Identity, y: Identity, cx: Contents, cy: Contents, tx: Tx) {
    match tx
    case Send(_, index, _, _, plaintext, _) =>
      index == y && plaintext.Receipt? ==> forall id :: id in plaintext.ids ==> AcceptedAt(cx, y, id)
    case AckOut(p, id) => p == y ==> AckJustified(x, y, cx, cy, id)
    case Accept(p, _, _, wire, _, _) => p == y ==> Deliverable(x, y, cx, cy, wire.cipher)
    case Receive(base, wire, _) => base.peer == y ==> Deliverable(x, y, cx, cy, wire.cipher)
    case _ => true
  }

  /** The transaction does not start or advance the session with `y`. */
  predicate Quiet(tx: Tx, y: Identity) {
    match tx
    case Create(p, _, _, _, _) => p != y
    case Accept(p, _, _, _, _, _) => p != y
    case Send(_, _, base, _, _, _) => base.peer != y
    case Receive(base, _, _) => base.peer != y
    case _ => true
  }

  predicate SendIdKept(y: Identity, c: Contents, c': Contents, client: ClientId) {
    SendIdKey(y, client) in c' ==>
      && SendIdKey(y, client) in c
      && (IsSendId(c'[SendIdKey(y, client)]) ==>
            && IsSendId(c[SendIdKey(y, client)]) && c'[SendIdKey(y, client)].id == c[SendIdKey(y, client)].id
            && (c'[SendIdKey(y, client)].SentRecord? ==> c[SendIdKey(y, client)].SentRecord?))
  }

  lemma QuietSession(d: Device, next: nat, c: Contents, tx: Tx, y: Identity)
    requires Inv(d, next, c) && Formed(d, next, tx) && Fires(d, next, c, tx) && Quiet(tx, y)
    ensures var c' := Effect(d, next, c, tx);
            && (SessionKey(y) in c' ==> SessionKey(y) in c && c'[SessionKey(y)] == c[SessionKey(y)])
            && (SessionKey(y) in c && SessionKey(y) !in c' ==> c[SessionKey(y)].SessionRecord? && !HasReceived(c, y))
  {
    hide MessageRows, Handles, Handshakes, StagedSend, StagedReceive, Candidate, CheckAnswerable;
  }

  lemma QuietSends(d: Device, next: nat, c: Contents, tx: Tx, y: Identity, client: ClientId)
    requires Inv(d, next, c) && Formed(d, next, tx) && Fires(d, next, c, tx) && Quiet(tx, y) && Safe(c, tx)
    ensures SendIdKept(y, c, Effect(d, next, c, tx), client)
  {
    hide SessionRows, Incoming, StagedSend, StagedReceive, Candidate, CheckAnswerable;
  }

  lemma QuietReceipts(d: Device, next: nat, c: Contents, tx: Tx, y: Identity, id: MessageId)
    requires Inv(d, next, c) && Formed(d, next, tx) && Fires(d, next, c, tx) && Quiet(tx, y)
    ensures var c' := Effect(d, next, c, tx);
            && (AcceptedAt(c', y, id) <==> AcceptedAt(c, y, id))
            && (InboxKey(y, id) in c' ==> InboxKey(y, id) in c && c'[InboxKey(y, id)] == c[InboxKey(y, id)])
  {
    hide SessionRows, MessageRows, StagedSend, StagedReceive, Candidate, CheckAnswerable;
  }

  lemma QuietOutbox(d: Device, next: nat, c: Contents, tx: Tx, y: Identity, client: ClientId)
    requires Inv(d, next, c) && Formed(d, next, tx) && Fires(d, next, c, tx) && Quiet(tx, y) && Safe(c, tx)
    requires SendIdKey(y, client) in c && c[SendIdKey(y, client)].SentRecord? && OutboxKey(y, c[SendIdKey(y, client)].id) in c
    requires var c' := Effect(d, next, c, tx);
             Lookup(c', SendIdKey(y, client)) == Lookup(c, SendIdKey(y, client)) && OutboxKey(y, c[SendIdKey(y, client)].id) !in c'
    ensures tx == AckOut(y, c[SendIdKey(y, client)].id)
    ensures c[OutboxKey(y, c[SendIdKey(y, client)].id)].OutboxRecord?
    ensures c[OutboxKey(y, c[SendIdKey(y, client)].id)].outgoing.client == client
  {
    hide SessionRows, Incoming, StagedSend, StagedReceive, Candidate, CheckAnswerable;
    var id := c[SendIdKey(y, client)].id;
    assert Lookup(c, SendIdKey(y, c[OutboxKey(y, id)].outgoing.client)) == Some(SentRecord(id));
  }

  lemma KeepsRecord(d: Device, next: nat, c: Contents, tx: Tx, y: Identity, id: MessageId)
    requires Inv(d, next, c) && Formed(d, next, tx) && Fires(d, next, c, tx) && HasRecord(c, y, id)
    ensures HasRecord(Effect(d, next, c, tx), y, id)
  {
    hide Inv, Effect, Fires, Formed, BoundTo;
    var client :| BoundTo(c, y, client, id);
    StepKeepsBinding(d, next, c, tx, NoFault, y, client, id);
  }

  ghost predicate QuietChange(y: Identity, c: Contents, c': Contents) {
    && (SessionKey(y) in c' ==> SessionKey(y) in c && c'[SessionKey(y)] == c[SessionKey(y)])
    && (SessionKey(y) in c && SessionKey(y) !in c' ==> c[SessionKey(y)].SessionRecord? && !HasReceived(c, y))
    && (forall client :: SendIdKept(y, c, c', client))
    && (forall id :: HasRecord(c, y, id) ==> HasRecord(c', y, id))
    && (forall id :: AcceptedAt(c', y, id) <==> AcceptedAt(c, y, id))
    && (forall id :: InboxKey(y, id) in c' ==> InboxKey(y, id) in c && c'[InboxKey(y, id)] == c[InboxKey(y, id)])
  }

  lemma QuietChanges(d: Device, next: nat, c: Contents, tx: Tx, y: Identity)
    requires Inv(d, next, c) && Formed(d, next, tx) && Fires(d, next, c, tx) && Quiet(tx, y) && Safe(c, tx)
    ensures QuietChange(y, c, Effect(d, next, c, tx))
  {
    hide Inv, Effect, Fires, Formed, Safe, Quiet, SendIdKept, AcceptedAt, HasReceived;
    var c' := Effect(d, next, c, tx);
    QuietSession(d, next, c, tx, y);
    forall client
      ensures SendIdKept(y, c, c', client)
    {
      QuietSends(d, next, c, tx, y, client);
    }
    forall id
      ensures AcceptedAt(c', y, id) <==> AcceptedAt(c, y, id)
      ensures InboxKey(y, id) in c' ==> InboxKey(y, id) in c && c'[InboxKey(y, id)] == c[InboxKey(y, id)]
    {
      QuietReceipts(d, next, c, tx, y, id);
    }
    forall id | HasRecord(c, y, id)
      ensures HasRecord(c', y, id)
    {
      KeepsRecord(d, next, c, tx, y, id);
    }
  }

  lemma QuietAck(d: Device, next: nat, cx: Contents, tx: Tx, y: Identity, cy: Contents)
    requires Inv(d, next, cx) && Formed(d, next, tx) && Fires(d, next, cx, tx) && Quiet(tx, y) && Safe(cx, tx)
    requires Allowed(d.our, y, cx, cy, tx) && AckSound(d.our, y, cx, cy)
    ensures AckSound(d.our, y, Effect(d, next, cx, tx), cy)
  {
    QuietChanges(d, next, cx, tx, y);
    hide Inv, Effect, Fires, Formed, Safe, Quiet;
    var cx' := Effect(d, next, cx, tx);
    forall client | SendIdKey(y, client) in cx' && cx'[SendIdKey(y, client)].SentRecord? && !ReceiptClient(client)
                    && OutboxKey(y, cx'[SendIdKey(y, client)].id) !in cx'
      ensures AcceptedAt(cy, d.our, cx'[SendIdKey(y, client)].id)
    {
      assert SendIdKept(y, cx, cx', client);
      if OutboxKey(y, cx[SendIdKey(y, client)].id) in cx {
        QuietOutbox(d, next, cx, tx, y, client);
      }
    }
  }

  lemma QuietHalf(x: Identity, y: Identity, next: nat, cx: Contents, cx': Contents, cy: Contents, pairs: Pairs)
    requires x != y && Sound(x, y, next, pairs) && Half(x, y, cx, cy, pairs)
    requires QuietChange(y, cx, cx') && AckSound(x, y, cx', cy)
    ensures Half(x, y, cx', cy, pairs)
  {
    hide TP.Inv;
    forall client | SendIdKey(y, client) in cx' && IsSendId(cx'[SendIdKey(y, client)])
      ensures SentWire(pairs, x, cx'[SendIdKey(y, client)].id)
    {
      assert SendIdKept(y, cx, cx', client);
    }
    assert Untouched(x, y, cx', pairs) by {
      forall seed | seed in pairs && seed.Handshake? && seed.responder == x && !HoldsSession(cx', y, seed)
        ensures pairs[seed].bob == FreshBob(seed)
      {
        assert PairSeed(x, y, seed);
        assert !HoldsSession(cx, y, seed);
      }
    }
  }

  lemma QuietStep(d: Device, next: nat, next': nat, cx: Contents, tx: Tx, y: Identity, cy: Contents, pairs: Pairs)
    requires d.our != y && next <= next' && World(d.our, y, next, cx, cy, pairs)
    requires Inv(d, next, cx) && Formed(d, next, tx) && Fires(d, next, cx, tx) && Quiet(tx, y) && Safe(cx, tx)
    requires Allowed(d.our, y, cx, cy, tx)
    ensures World(d.our, y, next', Effect(d, next, cx, tx), cy, pairs)
  {
    hide Inv, TP.Inv, Effect, Fires, Formed, Safe, Quiet, Half, Allowed;
    var x, cx' := d.our, Effect(d, next, cx, tx);
    QuietChanges(d, next, cx, tx, y);
    assert AckSound(x, y, cx', cy) by { QuietAckOf(d, next, cx, tx, y, cy, pairs); }
    QuietHalf(x, y, next, cx, cx', cy, pairs);
    assert OnlyMoves(x, y, pairs, pairs);
    PeerHalfKeeps(x, y, next, cx, cx', cy, pairs, pairs);
  }

  lemma QuietAckOf(d: Device, next: nat, cx: Contents, tx: Tx, y: Identity, cy: Contents, pairs: Pairs)
    requires Inv(d, next, cx) && Formed(d, next, tx) && Fires(d, next, cx, tx) && Quiet(tx, y) && Safe(cx, tx)
    requires Allowed(d.our, y, cx, cy, tx) && Half(d.our, y, cx, cy, pairs)
    ensures AckSound(d.our, y, Effect(d, next, cx, tx), cy)
  {
    QuietAck(d, next, cx, tx, y, cy);
  }

  // ── Steps of the session itself ──────────────────────────────────────────

  /** What a step of the session changes beside the session record: it may record
      one message sent, or one accepted. */
  ghost predicate Recorded(y: Identity, c: Contents, c': Contents, sent: Option<MessageId>, accepted: Option<MessageId>) {
    && (forall client :: SendIdKey(y, client) in c' ==>
          (SendIdKey(y, client) in c && c'[SendIdKey(y, client)] == c[SendIdKey(y, client)])
          || (sent.Some? && c'[SendIdKey(y, client)] == SentRecord(sent.value) && OutboxKey(y, sent.value) in c'))
    && (forall id :: HasRecord(c, y, id) || sent == Some(id) ==> HasRecord(c', y, id))
    && (forall id :: OutboxKey(y, id) in c ==> OutboxKey(y, id) in c')
    && (forall id :: AcceptedAt(c', y, id) <==> AcceptedAt(c, y, id) || accepted == Some(id))
    && (forall id :: InboxKey(y, id) in c' ==>
          (InboxKey(y, id) in c && c'[InboxKey(y, id)] == c[InboxKey(y, id)])
          || (accepted == Some(id) && id.cipher.Sealed? && c'[InboxKey(y, id)].InboxRecord?
              && c'[InboxKey(y, id)].incoming.plaintext == id.cipher.plaintext))
  }

  /** `x` sent nothing new but `sent`, whose receipts are true. */
  ghost predicate SentOnly(x: Identity, y: Identity, c': Contents, pairs: Pairs, pairs': Pairs, sent: Option<MessageId>) {
    forall w :: SentWire(pairs', x, w) ==>
      SentWire(pairs, x, w)
      || (sent == Some(w) && (w.cipher.Sealed? && w.cipher.plaintext.Receipt? ==>
                                forall id :: id in w.cipher.plaintext.ids ==> AcceptedAt(c', y, id)))
  }

  lemma ActiveStep(x: Identity, y: Identity, next: nat, next': nat, cx: Contents, cx': Contents, cy: Contents,
                   pairs: Pairs, pairs': Pairs, sent: Option<MessageId>, accepted: Option<MessageId>)
    requires x != y && World(x, y, next, cx, cy, pairs) && Sound(x, y, next', pairs') && OnlyMoves(x, y, pairs, pairs')
    requires Linked(x, y, cx', pairs') && Untouched(x, y, cx', pairs')
    requires Recorded(y, cx, cx', sent, accepted) && SentOnly(x, y, cx', pairs, pairs', sent)
    requires sent.Some? ==> SentWire(pairs', x, sent.value)
    requires accepted.Some? ==> SentWire(pairs, y, accepted.value)
    ensures World(x, y, next', cx', cy, pairs')
  {
    hide TP.Inv, Linked, Untouched;
    forall id
      ensures SentWire(pairs', y, id) <==> SentWire(pairs, y, id)
    {
      PeerSendsNothing(x, y, next, pairs, pairs', id);
    }
    PeerHalfKeeps(x, y, next, cx, cx', cy, pairs, pairs');
    hide PairSeed;
    assert Committed(x, y, cx', pairs');
    assert OnRecord(x, y, cx', pairs');
    assert Truthful(x, y, cx', pairs');
    assert Genuine(y, cx', pairs');
    assert AckSound(x, y, cx', cy);
  }

  /** The stored session after its end of the pair moved to `t`'s. */
  lemma StillLinked(x: Identity, y: Identity, c: Contents, c': Contents, pairs: Pairs, seed: Seed, t: Session, next: SessionState)
    requires seed.Handshake? && seed in pairs && TP.Inv(t) && t.seed == seed && t.ad == pairs[seed].ad
    requires Lookup(c', SessionKey(y)) == Some(SessionRecord(next))
    requires t.At(PartyFor(x, seed)).r == next.ratchet && next.ad == t.ad
    requires (next.role.Initiator? <==> seed.initiator == x) && (next.role.Responder? ==> Established(next))
    requires Untouched(x, y, c, pairs) && (SessionKey(y) in c ==> HoldsSession(c, y, seed))
    ensures Linked(x, y, c', pairs[seed := t]) && Untouched(x, y, c', pairs[seed := t])
  {
    RatchetHasSeed(t, PartyFor(x, seed));
    hide TP.Inv, FreshBob;
  }

  lemma SentOnlyNew(x: Identity, y: Identity, c': Contents, pairs: Pairs, seed: Seed, t: Session, sent: Option<MessageId>)
    requires seed.Handshake? && seed in pairs
    requires forall w :: SentIn(t, PartyFor(x, seed), w) ==> sent == Some(w) || SentIn(pairs[seed], PartyFor(x, seed), w)
    requires sent.Some? && sent.value.cipher.Sealed? && sent.value.cipher.plaintext.Receipt? ==>
               forall id :: id in sent.value.cipher.plaintext.ids ==> AcceptedAt(c', y, id)
    ensures SentOnly(x, y, c', pairs, pairs[seed := t], sent)
  {
    forall w | SentWire(pairs[seed := t], x, w) && sent != Some(w)
      ensures SentWire(pairs, x, w)
    {
      var at :| SentUnder(pairs[seed := t], at, x, w);
      assert SentUnder(pairs, at, x, w);
    }
  }

  lemma SendRecorded(d: Device, next: nat, c: Contents, tx: Tx)
    requires tx.Send? && Inv(d, next, c) && Formed(d, next, tx) && Fires(d, next, c, tx) && Safe(c, tx)
    ensures var (c', staged) := (Effect(d, next, c, tx), StagedSend(tx.base, tx.plaintext, tx.nonce).value);
            && Recorded(tx.base.peer, c, c', Some(staged.wire), None)
            && Lookup(c', SessionKey(tx.base.peer)) == Some(SessionRecord(staged.next))
            && (forall id :: AcceptedAt(c', tx.base.peer, id) <==> AcceptedAt(c, tx.base.peer, id))
            && staged.next == tx.base.(generation := staged.next.generation, ratchet := staged.next.ratchet)
            && staged.next.ratchet.ckr == tx.base.ratchet.ckr
            && Lookup(c, SessionKey(tx.base.peer)) == Some(SessionRecord(tx.base))
            && StageEncrypt(tx.base.ratchet, tx.plaintext, tx.base.ad, tx.nonce).Ok?
            && var e := StageEncrypt(tx.base.ratchet, tx.plaintext, tx.base.ad, tx.nonce).value;
               staged.next.ratchet == e.state && staged.wire == Wire(e.header, e.cipher)
  {
    SendStaged(tx.base, tx.plaintext, tx.nonce);
    forall id | HasRecord(c, tx.base.peer, id)
      ensures HasRecord(Effect(d, next, c, tx), tx.base.peer, id)
    {
      KeepsRecord(d, next, c, tx, tx.base.peer, id);
    }
    SendBinds(d, next, c, tx);
    assert HasRecord(Effect(d, next, c, tx), tx.base.peer, SentBy(tx));
    hide MessageRows, HasRecord;
  }

  lemma SendStep(d: Device, next: nat, next': nat, cx: Contents, tx: Tx, y: Identity, cy: Contents, pairs: Pairs)
    returns (pairs': Pairs)
    requires d.our != y && next <= next' && World(d.our, y, next, cx, cy, pairs)
    requires Inv(d, next, cx) && Formed(d, next, tx) && Fires(d, next, cx, tx) && Safe(cx, tx)
    requires tx.Send? && tx.base.peer == y && Allowed(d.our, y, cx, cy, tx)
    ensures World(d.our, y, next', Effect(d, next, cx, tx), cy, pairs')
  {
    var (x, cx', staged) := (d.our, Effect(d, next, cx, tx), StagedSend(tx.base, tx.plaintext, tx.nonce).value);
    SendRecorded(d, next, cx, tx);
    assert tx.index == y;
    hide Inv, TP.Inv, Effect, Fires, Formed, Safe, StagedSend, StageEncrypt, Recorded, SentOnly, FreshBob, TP.SendStep;
    var seed := RootSeed(tx.base.ratchet.rk);
    assert PairSeed(x, y, seed);
    Opposite(x, y, seed);
    var p := PartyFor(x, seed);
    SendOne(pairs[seed], p, tx.plaintext, tx.nonce);
    var t := TP.SendStep(pairs[seed], p, tx.plaintext, tx.nonce);
    MovedPair(x, y, next, next', pairs, seed, t);
    StillLinked(x, y, cx, cx', pairs, seed, t, staged.next);
    SentOnlyNew(x, y, cx', pairs, seed, t, Some(staged.wire));
    pairs' := pairs[seed := t];
    assert SentUnder(pairs', seed, x, staged.wire);
    ActiveStep(x, y, next, next', cx, cx', cy, pairs, pairs', Some(staged.wire), None);
  }

  /** `next` is `base` after decrypting `w`, which was accepted with it. */
  ghost predicate ReceivedAs(c: Contents, c': Contents, base: SessionState, next: SessionState, w: MessageId, newDh: DhKey) {
    && Lookup(c', SessionKey(base.peer)) == Some(SessionRecord(next))
    && next == base.(generation := next.generation, ratchet := next.ratchet) && Established(next)
    && WellFormed(base.ratchet) && StageDecrypt(base.ratchet, w.header, w.cipher, base.ad, newDh).Ok?
    && var o := StageDecrypt(base.ratchet, w.header, w.cipher, base.ad, newDh).value;
       && next.ratchet == o.state
       && (w.cipher.Sealed? && o.plaintext == w.cipher.plaintext ==> Recorded(base.peer, c, c', None, Some(w)))
  }

  lemma ReceiveRecorded(d: Device, next: nat, c: Contents, tx: Tx)
    requires tx.Receive? && Inv(d, next, c) && Formed(d, next, tx) && Fires(d, next, c, tx)
    ensures ReceivedAs(c, Effect(d, next, c, tx), tx.base, StagedReceive(tx.base, tx.wire, tx.newDh).value.next, tx.wire, tx.newDh)
    ensures Lookup(c, SessionKey(tx.base.peer)) == Some(SessionRecord(tx.base))
  {
    ReceiveStaged(tx.base, tx.wire, tx.newDh);
    forall id | HasRecord(c, tx.base.peer, id)
      ensures HasRecord(Effect(d, next, c, tx), tx.base.peer, id)
    {
      KeepsRecord(d, next, c, tx, tx.base.peer, id);
    }
    hide SessionRows, MessageRows, HasRecord;
  }

  lemma AcceptRecorded(d: Device, next: nat, c: Contents, tx: Tx)
    requires tx.Accept? && Inv(d, next, c) && Formed(d, next, tx) && Fires(d, next, c, tx)
    ensures var base := Candidate(d.our, tx.handshake, tx.prekeys);
            ReceivedAs(c, Effect(d, next, c, tx), base, StagedReceive(base, tx.wire, tx.newDh).value.next, tx.wire, tx.newDh)
  {
    ReceiveStaged(Candidate(d.our, tx.handshake, tx.prekeys), tx.wire, tx.newDh);
    forall id | HasRecord(c, tx.peer, id)
      ensures HasRecord(Effect(d, next, c, tx), tx.peer, id)
    {
      KeepsRecord(d, next, c, tx, tx.peer, id);
    }
    hide SessionRows, MessageRows, HasRecord;
  }

  /** Decrypting on `x`'s end of a pair, from the store or as a candidate. */
  lemma DeliverStep(x: Identity, y: Identity, next: nat, next': nat, cx: Contents, cx': Contents, cy: Contents, pairs: Pairs,
                    seed: Seed, base: SessionState, after: SessionState, w: MessageId, newDh: DhKey)
    returns (pairs': Pairs)
    requires x != y && World(x, y, next, cx, cy, pairs) && next <= newDh < next'
    requires seed in pairs && base.peer == y && base.ad == pairs[seed].ad
    requires pairs[seed].At(PartyFor(x, seed)).r == base.ratchet && (base.role.Initiator? <==> seed.initiator == x)
    requires SessionKey(y) in cx ==> HoldsSession(cx, y, seed)
    requires ReceivedAs(cx, cx', base, after, w, newDh) && Deliverable(x, y, cx, cy, w.cipher)
    ensures World(x, y, next', cx', cy, pairs')
  {
    hide TP.Inv, StageDecrypt, Recorded, SentOnly, FreshBob, TP.DeliverStep, WellFormed, TP.Producible, Deliverable, TP.Turns, TP.Drops;
    assert PairSeed(x, y, seed);
    Opposite(x, y, seed);
    var p := PartyFor(x, seed);
    DeliverableIsProducible(x, y, next, cx, cy, pairs, w.cipher, seed);
    DeliverOne(pairs[seed], p, w, newDh);
    var t := TP.DeliverStep(pairs[seed], p, w.header, w.cipher, newDh);
    MovedPair(x, y, next, next', pairs, seed, t);
    StillLinked(x, y, cx, cx', pairs, seed, t, after);
    SentOnlyNew(x, y, cx', pairs, seed, t, None);
    pairs' := pairs[seed := t];
    assert SentUnder(pairs, seed, y, w);
    ActiveStep(x, y, next, next', cx, cx', cy, pairs, pairs', None, Some(w));
  }

  lemma ReceiveStep(d: Device, next: nat, next': nat, cx: Contents, tx: Tx, y: Identity, cy: Contents, pairs: Pairs)
    returns (pairs': Pairs)
    requires d.our != y && NextAfter(next, tx) <= next' && World(d.our, y, next, cx, cy, pairs)
    requires Inv(d, next, cx) && Formed(d, next, tx) && Fires(d, next, cx, tx)
    requires tx.Receive? && tx.base.peer == y && Allowed(d.our, y, cx, cy, tx)
    ensures World(d.our, y, next', Effect(d, next, cx, tx), cy, pairs')
  {
    var (x, cx') := (d.our, Effect(d, next, cx, tx));
    var after := StagedReceive(tx.base, tx.wire, tx.newDh).value.next;
    ReceiveRecorded(d, next, cx, tx);
    assert next <= tx.newDh;
    hide Inv, TP.Inv, Effect, Fires, Formed, StagedReceive, ReceivedAs, FreshBob, Deliverable;
    pairs' := DeliverStep(x, y, next, next', cx, cx', cy, pairs, RootSeed(tx.base.ratchet.rk), tx.base, after, tx.wire, tx.newDh);
  }

  /** The key that sealed an acceptable first message descends from the very
      secret the recorded handshake derives. */
  lemma AcceptedKey(d: Device, next: nat, tx: Tx)
    requires tx.Accept? && Formed(d, next, tx)
    ensures var seed := Handshake(tx.peer, d.our, tx.handshake.ephemeral, tx.prekeys.signed, tx.prekeys.oneTime);
            && tx.wire.cipher.Sealed? && KeySeed(tx.wire.cipher.key) == seed
            && Candidate(d.our, tx.handshake, tx.prekeys).ratchet == InitBob(seed, seed.signedPrekey)
            && Candidate(d.our, tx.handshake, tx.prekeys).ad == Ad(tx.peer, d.our)
            && Candidate(d.our, tx.handshake, tx.prekeys).peer == tx.peer
            && Candidate(d.our, tx.handshake, tx.prekeys).role.Responder?
  {
    var (base, w) := (Candidate(d.our, tx.handshake, tx.prekeys), tx.wire);
    TP.TurnedKey(base.ratchet, w.header, w.cipher, base.ad, tx.newDh);
    AdvanceKeepsSeed(TP.TurnedChain(base.ratchet, w.header.dh), w.header.n);
  }

  /** So it was sent by the device the handshake names: an accepted session is
      always one the peer started. */
  lemma AcceptStep(d: Device, next: nat, next': nat, cx: Contents, tx: Tx, y: Identity, cy: Contents, pairs: Pairs)
    returns (pairs': Pairs)
    requires d.our != y && NextAfter(next, tx) <= next' && World(d.our, y, next, cx, cy, pairs)
    requires Inv(d, next, cx) && Formed(d, next, tx) && Fires(d, next, cx, tx)
    requires tx.Accept? && tx.peer == y && Allowed(d.our, y, cx, cy, tx)
    ensures World(d.our, y, next', Effect(d, next, cx, tx), cy, pairs')
  {
    var (x, cx') := (d.our, Effect(d, next, cx, tx));
    var base := Candidate(d.our, tx.handshake, tx.prekeys);
    var after := StagedReceive(base, tx.wire, tx.newDh).value.next;
    var seed := Handshake(y, x, tx.handshake.ephemeral, tx.prekeys.signed, tx.prekeys.oneTime);
    AcceptRecorded(d, next, cx, tx);
    AcceptedKey(d, next, tx);
    assert next <= tx.newDh < tx.newOneTime && SessionKey(y) !in cx;
    hide Inv, TP.Inv, Effect, Fires, Formed, StagedReceive, ReceivedAs, Candidate;
    DeliverableWasSent(x, y, next, cx, cy, pairs, tx.wire.cipher);
    assert pairs[seed].bob == FreshBob(seed);
    pairs' := DeliverStep(x, y, next, next', cx, cx', cy, pairs, seed, base, after, tx.wire, tx.newDh);
  }

  lemma CreateRecorded(d: Device, next: nat, c: Contents, tx: Tx)
    requires tx.Create? && Inv(d, next, c) && Formed(d, next, tx) && Fires(d, next, c, tx)
    ensures var c' := Effect(d, next, c, tx);
            && SessionKey(tx.peer) !in c
            && Lookup(c', SessionKey(tx.peer))
               == Some(SessionRecord(NewInitiator(d.our, tx.peer, tx.signedPrekey, tx.oneTime, tx.ephemeral, tx.dh)))
            && Recorded(tx.peer, c, c', None, None)
            && tx.signedPrekey < next <= tx.ephemeral < tx.dh
  {
    forall id | HasRecord(c, tx.peer, id)
      ensures HasRecord(Effect(d, next, c, tx), tx.peer, id)
    {
      KeepsRecord(d, next, c, tx, tx.peer, id);
    }
    hide SessionRows, MessageRows, HasRecord;
  }

  lemma NewPairLinked(x: Identity, y: Identity, cx: Contents, cx': Contents, pairs: Pairs, seed: Seed, dh: DhKey, next: SessionState)
    requires x != y && seed.Handshake? && seed.initiator == x && seed.responder == y && seed !in pairs && seed.signedPrekey < dh
    requires Lookup(cx', SessionKey(y)) == Some(SessionRecord(next)) && SessionKey(y) !in cx && Untouched(x, y, cx, pairs)
    requires next.ratchet == InitAlice(seed, seed.signedPrekey, dh) && next.role.Initiator? && next.ad == Ad(x, y)
    ensures var pairs' := pairs[seed := TP.Start<Payload>(seed, Ad(x, y), seed.signedPrekey, dh)];
            && Linked(x, y, cx', pairs') && Untouched(x, y, cx', pairs') && SentOnly(x, y, cx', pairs, pairs', None)
  {
    var t := TP.Start<Payload>(seed, Ad(x, y), seed.signedPrekey, dh);
    StartIs(seed, Ad(x, y), dh);
    RatchetHasSeed(t, TP.Alice);
    hide TP.Inv, TP.Start, FreshBob;
    forall w | SentWire(pairs[seed := t], x, w)
      ensures SentWire(pairs, x, w)
    {
      var at :| SentUnder(pairs[seed := t], at, x, w);
      assert SentUnder(pairs, at, x, w);
    }
  }

  lemma CreateStep(d: Device, next: nat, next': nat, cx: Contents, tx: Tx, y: Identity, cy: Contents, pairs: Pairs)
    returns (pairs': Pairs)
    requires d.our != y && NextAfter(next, tx) <= next' && World(d.our, y, next, cx, cy, pairs)
    requires Inv(d, next, cx) && Formed(d, next, tx) && Fires(d, next, cx, tx) && tx.Create? && tx.peer == y
    ensures World(d.our, y, next', Effect(d, next, cx, tx), cy, pairs')
  {
    var (x, cx') := (d.our, Effect(d, next, cx, tx));
    var seed := Handshake(x, y, tx.ephemeral, tx.signedPrekey, tx.oneTime);
    CreateRecorded(d, next, cx, tx);
    hide Inv, TP.Inv, Effect, Fires, Formed, Recorded, FreshBob, TP.Start, SentOnly, Linked, Untouched;
    StartedPair(x, y, next, next', pairs, seed, tx.dh);
    pairs' := pairs[seed := TP.Start<Payload>(seed, Ad(x, y), seed.signedPrekey, tx.dh)];
    NewPairLinked(x, y, cx, cx', pairs, seed, tx.dh,
                  NewInitiator(x, y, tx.signedPrekey, tx.oneTime, tx.ephemeral, tx.dh));
    ActiveStep(x, y, next, next', cx, cx', cy, pairs, pairs', None, None);
  }

  /** Any allowed step of one device, whatever happens to its commit. */
  lemma WorldStep(d: Device, next: nat, next': nat, cx: Contents, tx: Tx, fault: Fault, y: Identity, cy: Contents, pairs: Pairs)
    returns (pairs': Pairs)
    requires d.our != y && next <= next' && NextAfter(next, tx) <= next' && World(d.our, y, next, cx, cy, pairs)
    requires Inv(d, next, cx) && Formed(d, next, tx) && (Fires(d, next, cx, tx) ==> Safe(cx, tx))
    requires Allowed(d.our, y, cx, cy, tx)
    ensures World(d.our, y, next', After(d, next, cx, tx, fault), cy, pairs')
  {
    hide Inv, TP.Inv, Effect, Fires, Formed, Half, Allowed;
    if !(Kept(fault) && Fires(d, next, cx, tx)) {
      pairs' := pairs;
    } else if Quiet(tx, y) {
      QuietStep(d, next, next', cx, tx, y, cy, pairs);
      pairs' := pairs;
    } else if tx.Create? {
      pairs' := CreateStep(d, next, next', cx, tx, y, cy, pairs);
    } else if tx.Accept? {
      pairs' := AcceptStep(d, next, next', cx, tx, y, cy, pairs);
    } else if tx.Send? {
      pairs' := SendStep(d, next, next', cx, tx, y, cy, pairs);
    } else {
      pairs' := ReceiveStep(d, next, next', cx, tx, y, cy, pairs);
    }
  }
}

/** What the handshake stored with a session says: whoever can answer it derives
    the secret the session is keyed from, and nobody else does. */
module FirstContact {
  import opened Prelude
  import opened RatchetFields
  import opened SymbolicKeys
  import opened RatchetModel
  import opened Staging
  import opened StoreRecords
  import opened ConditionalWrites
  import opened DurableSessions
  import opened MessengerModel
  import opened MessengerInvariant
  import opened MessengerRuns

  /** The session descends from the X3DH secret the handshake names. */
  predicate Matches(our: Identity, p: Identity, h: InitiatorHandshake, s: SessionState) {
    && h.InitiatorHandshake? && h.identity == our
    && RootSeed(s.ratchet.rk) == Handshake(our, p, h.ephemeral, h.signedPrekey, h.oneTimePrekey)
  }

  /** A handshake stored for `p` is that of the session stored beside it. */
  predicate HandshakeOfSession(d: Device, c: Contents, p: Identity) {
    HandshakeKey(p) in c ==>
      && c[HandshakeKey(p)].HandshakeRecord? && SessionKey(p) in c && c[SessionKey(p)].SessionRecord?
      && Matches(d.our, p, c[HandshakeKey(p)].handshake, c[SessionKey(p)].session)
  }

  // ── No message changes the secret a session descends from ─────────────────

  lemma SendKeepsSeed(base: SessionState, plaintext: Payload, nonce: nat)
    requires StagedSend(base, plaintext, nonce).Some?
    ensures RootSeed(StagedSend(base, plaintext, nonce).value.next.ratchet.rk) == RootSeed(base.ratchet.rk)
  {
  }

  lemma NewSeed(our: Identity, p: Identity, signedPrekey: DhKey, oneTime: Option<DhKey>, ephemeral: DhKey, dh: DhKey)
    ensures Matches(our, p, InitiatorHandshake(our, ephemeral, signedPrekey, oneTime),
                    NewInitiator(our, p, signedPrekey, oneTime, ephemeral, dh))
  {
  }

  lemma ReceiveKeepsSeed(base: SessionState, wire: Wire<Payload>, newDh: DhKey)
    requires StagedReceive(base, wire, newDh).Some?
    ensures RootSeed(StagedReceive(base, wire, newDh).value.next.ratchet.rk) == RootSeed(base.ratchet.rk)
  {
  }

  // ── Over every run ────────────────────────────────────────────────────────

  lemma NoSessionNoHandshake(d: Device, next: nat, c: Contents, p: Identity)
    requires Inv(d, next, c) && SessionKey(p) !in c
    ensures HandshakeKey(p) !in c
  {
  }

  lemma StepKeepsHandshake(d: Device, next: nat, c: Contents, tx: Tx, fault: Fault, p: Identity)
    requires Inv(d, next, c) && Formed(d, next, tx) && HandshakeOfSession(d, c, p)
    ensures HandshakeOfSession(d, After(d, next, c, tx, fault), p)
  {
    hide Inv, StagedSend, StagedReceive, Candidate, Storable, CheckAnswerable, RootSeed;
    if Fires(d, next, c, tx) {
      match tx
      case Create(peer, signedPrekey, oneTime, ephemeral, dh) =>
        NewSeed(d.our, peer, signedPrekey, oneTime, ephemeral, dh);
      case Accept(peer, _, _, _, _, _) => NoSessionNoHandshake(d, next, c, peer);
      case Send(_, _, base, _, plaintext, nonce) =>
        SendKeepsSeed(base, plaintext, nonce);
      case Receive(base, wire, newDh) => ReceiveKeepsSeed(base, wire, newDh);
      case _ =>
    }
  }

  /** In every run that starts so, a handshake is stored only beside the session it
      started. */
  lemma {:induction false} HandshakeStays(d: Device, r: Run, k: nat, p: Identity)
    requires IsRun(d, r) && NoCollision(d, r) && k < |r.versions| && HandshakeOfSession(d, r.versions[0], p)
    ensures HandshakeOfSession(d, r.versions[k], p)
  {
    hide Inv, HandshakeOfSession;
    if k > 0 {
      HandshakeStays(d, r, k - 1, p);
      RunKeepsInv(d, r, k - 1);
      assert StepOf(d, r, k - 1);
      StepKeepsHandshake(d, r.next[k - 1], r.versions[k - 1], r.events[k - 1].tx, r.events[k - 1].fault, p);
    }
  }

  /** At every version, the handshake stored for `p` can be answered by exactly the
      prekeys from which `p` derives the secret our session descends from. */
  lemma AnsweredExactly(d: Device, r: Run, k: nat, p: Identity, prekeys: Prekeys)
    requires IsRun(d, r) && NoCollision(d, r) && k < |r.versions| && HandshakeOfSession(d, r.versions[0], p)
    requires HandshakeKey(p) in r.versions[k]
    ensures var (stored, session) := (r.versions[k][HandshakeKey(p)], Lookup(r.versions[k], SessionKey(p)));
            && stored.HandshakeRecord? && stored.handshake.InitiatorHandshake?
            && session.Some? && session.value.SessionRecord?
            && (CheckAnswerable(prekeys, stored.handshake).None? <==>
                  RootSeed(Candidate(p, stored.handshake, prekeys).ratchet.rk) == RootSeed(session.value.session.ratchet.rk))
  {
    HandshakeStays(d, r, k, p);
  }
}

/** The main results about two ends of a session, for one delivery and for whole
    runs. */
module TwoPartyRuns {
  import opened Prelude
  import opened RatchetFields
  import opened SymbolicKeys
  import opened RatchetModel
  import opened Staging
  import opened TwoParty

  // ── Agreement: exactly which genuine messages decrypt ─────────────────────

  /** The skip limits a message meets that the receiver holds no key for, and
      the counter bound of the durable layer. */
  predicate WithinLimits(r: RatchetState, header: Header) {
    || HoldsKey(r.skipped, header.dh, header.n)
    || (if r.dhr == Some(header.dh) then header.n <= r.nr + MAX_SKIP && header.n < MAX_RESUMABLE_NR
        else header.pn <= r.nr + MAX_SKIP && header.n <= MAX_SKIP)
  }

  /** `pos` is new to `p`, and the store of skipped keys has not dropped it. */
  predicate Outstanding<P>(s: Session<P>, p: Party, pos: Position) {
    pos !in s.At(p).accepted && pos !in s.At(p).evicted
  }

  lemma HeldOpens<P>(seed: Seed, ad: Ad, keys: seq<DhKey>, counts: seq<U32>, q: nat, nr: U32, e: nat,
                     k: Skipped<DhKey, MessageKey>, w: Wire<P>)
    requires |counts| == |keys| && Distinct(keys) && 1 <= e < |keys|
    requires HeldRight(seed, keys, counts, q, nr, k)
    requires WireAt(seed, ad, keys, counts, e, w.header.n, w) && k.dh == w.header.dh && k.n == w.header.n
    ensures Open(k.mk, w.cipher, ad, w.header) == Ok(w.cipher.plaintext)
  {
    var f :| PassedAt(keys, counts, q, nr, f, Position(k.dh, k.n)) && k.mk == KeyAt(seed, keys, f, k.n);
    assert e == f;
  }

  lemma HeldDecrypts<P>(seed: Seed, ad: Ad, keys: seq<DhKey>, counts: seq<U32>, p: Party, side: Side<P>, w: Wire<P>, e: nat, newDh: DhKey)
    requires |counts| == |keys| && Distinct(keys) && SideInv(seed, ad, keys, counts, p, side)
    requires 1 <= e < |keys| && WireAt(seed, ad, keys, counts, e, w.header.n, w)
    requires HoldsKey(side.r.skipped, w.header.dh, w.header.n)
    ensures var d := StageDecrypt(side.r, w.header, w.cipher, ad, newDh);
            d.Ok? && d.value.plaintext == w.cipher.plaintext
    ensures Position(w.header.dh, w.header.n) !in side.accepted + side.evicted
  {
    var i := Find(side.r.skipped, w.header.dh, w.header.n).value;
    assert side.r.skipped[i] in side.r.skipped;
    HeldOpens(seed, ad, keys, counts, side.epoch - 1, side.r.nr, e, side.r.skipped[i], w);
    assert Position(w.header.dh, w.header.n) in KeysOf(side.r.skipped);
  }

  /** A message ahead of the receiver in its current chain. */
  lemma ChainDecrypts<P>(seed: Seed, ad: Ad, keys: seq<DhKey>, counts: seq<U32>, r: RatchetState, w: Wire<P>, e: nat)
    requires |counts| == |keys| && 1 <= e < |keys| && WireAt(seed, ad, keys, counts, e, w.header.n, w)
    requires r.dhr == Some(keys[e]) && r.nr <= w.header.n && r.ckr == Some(Advance(ChainAt(seed, keys, e), r.nr))
    ensures var a := DecryptInChain(r, w.header, w.cipher, ad);
            && (a.result.Ok? <==> w.header.n <= r.nr + MAX_SKIP)
            && (a.result.Ok? ==> a.result.value == w.cipher.plaintext)
  {
    SkipLoopChain(r, w.header.n);
    AdvanceAdds(ChainAt(seed, keys, e), r.nr, w.header.n - r.nr);
  }

  lemma ResumableAfter<P>(r: RatchetState, header: Header, c: Cipher<P>, ad: Ad, newDh: DhKey)
    requires WellFormed(r) && Resumable(r) && !HoldsKey(r.skipped, header.dh, header.n)
    requires Decrypt(r, header, c, ad, newDh).result.Ok?
    requires header.n >= r.nr || r.dhr != Some(header.dh)
    ensures Resumable(Decrypt(r, header, c, ad, newDh).state)
            <==> (r.dhr == Some(header.dh) && header.n >= r.nr ==> header.n < MAX_RESUMABLE_NR)
  {
  }

  lemma CurrentDecrypts<P>(seed: Seed, ad: Ad, keys: seq<DhKey>, counts: seq<U32>, p: Party, side: Side<P>, w: Wire<P>, newDh: DhKey)
    requires |counts| == |keys| && Distinct(keys) && SideInv(seed, ad, keys, counts, p, side) && side.epoch >= 2
    requires w.header.n >= side.r.nr && !HoldsKey(side.r.skipped, w.header.dh, w.header.n)
    requires WireAt(seed, ad, keys, counts, side.epoch - 1, w.header.n, w)
    ensures var d := StageDecrypt(side.r, w.header, w.cipher, ad, newDh);
            && (d.Ok? <==> WithinLimits(side.r, w.header))
            && (d.Ok? ==> d.value.plaintext == w.cipher.plaintext)
  {
    ChainDecrypts(seed, ad, keys, counts, side.r, w, side.epoch - 1);
    if Decrypt(side.r, w.header, w.cipher, ad, newDh).result.Ok? {
      ResumableAfter(side.r, w.header, w.cipher, ad, newDh);
    }
  }

  lemma NextEpochDecrypts<P>(seed: Seed, ad: Ad, keys: seq<DhKey>, counts: seq<U32>, p: Party, side: Side<P>, w: Wire<P>, newDh: DhKey)
    requires |counts| == |keys| && Distinct(keys) && SideInv(seed, ad, keys, counts, p, side) && side.epoch + 1 < |keys|
    requires !HoldsKey(side.r.skipped, w.header.dh, w.header.n)
    requires WireAt(seed, ad, keys, counts, side.epoch + 1, w.header.n, w)
    ensures var d := StageDecrypt(side.r, w.header, w.cipher, ad, newDh);
            && (d.Ok? <==> WithinLimits(side.r, w.header))
            && (d.Ok? ==> d.value.plaintext == w.cipher.plaintext)
  {
    var r := side.r;
    var t := DhRatchetStep(SkipMessageKeys(r, w.header.pn), w.header.dh, newDh);
    assert t.ckr == Some(Advance(ChainAt(seed, keys, side.epoch + 1), 0));
    ChainDecrypts(seed, ad, keys, counts, t, w, side.epoch + 1);
    if Decrypt(r, w.header, w.cipher, ad, newDh).result.Ok? {
      ResumableAfter(r, w.header, w.cipher, ad, newDh);
    }
  }

  /** Every message of the peer is in an epoch the receiver has passed, receives
      in, or will turn to next. */
  lemma PeerEpoch<P>(s: Session<P>, p: Party, e: nat)
    requires Inv(s) && Mine(Peer(p), e) && e < |s.keys|
    ensures e == s.At(p).epoch + 1 || e <= s.At(p).epoch - 1
    ensures e % 2 == (s.At(p).epoch + 1) % 2
  {
  }

  /** A position behind the receiver is accepted, evicted or held; one ahead is
      none of them. */
  lemma PassedOrNot<P>(seed: Seed, ad: Ad, keys: seq<DhKey>, counts: seq<U32>, p: Party, side: Side<P>, e: nat, pos: Position)
    requires |counts| == |keys| && Distinct(keys) && SideInv(seed, ad, keys, counts, p, side)
    requires SentAt(keys, counts, Peer(p), e, pos) && e % 2 == (side.epoch + 1) % 2
    ensures pos in side.accepted + side.evicted + KeysOf(side.r.skipped)
            <==> e < side.epoch - 1 || (e == side.epoch - 1 && pos.n < side.r.nr)
  {
    if side.epoch >= 2 {
      var q := side.epoch - 1;
      assert Passed(keys, counts, q, side.r.nr, pos) <==> PassedAt(keys, counts, q, side.r.nr, e, pos);
    }
  }

  /** What is known of a message the peer sent: its epoch, and both of its ends. */
  lemma SentFacts<P>(s: Session<P>, p: Party, pos: Position) returns (e: nat)
    requires Inv(s) && pos in s.At(Peer(p)).sent
    ensures |s.counts| == |s.keys| && Distinct(s.keys) && SideInv(s.seed, s.ad, s.keys, s.counts, p, s.At(p))
    ensures 1 <= e < |s.keys| && Mine(Peer(p), e) && SentAt(s.keys, s.counts, Peer(p), e, pos)
    ensures var w := s.At(Peer(p)).sent[pos];
            WireAt(s.seed, s.ad, s.keys, s.counts, e, pos.n, w) && pos == Position(w.header.dh, w.header.n)
  {
    e := SentInfo(s.seed, s.ad, s.keys, s.counts, Peer(p), s.At(Peer(p)).sent, pos);
  }

  /** Agreement: a message the peer sent decrypts, to exactly its plaintext, if
      and only if it was not decrypted before, its key was not evicted, and it
      lies within the skip limits — in whatever order, and after whatever else
      was delivered, lost, repeated or forged. */
  lemma Agreement<P(!new)>(s: Session<P>, p: Party, pos: Position, newDh: DhKey)
    requires Inv(s) && pos in s.At(Peer(p)).sent && newDh !in s.keys
    ensures var w := s.At(Peer(p)).sent[pos];
            var d := StageDecrypt(s.At(p).r, w.header, w.cipher, s.ad, newDh);
            && (d.Ok? <==> Outstanding(s, p, pos) && WithinLimits(s.At(p).r, w.header))
            && (d.Ok? ==> d.value.plaintext == w.cipher.plaintext)
  {
    hide StageDecrypt, Inv, SideInv, WireAt, SentAt;
    var side, w := s.At(p), s.At(Peer(p)).sent[pos];
    var e := SentFacts(s, p, pos);
    KeysOfFind(side.r.skipped, w.header.dh, w.header.n);
    if HoldsKey(side.r.skipped, w.header.dh, w.header.n) {
      HeldDecrypts(s.seed, s.ad, s.keys, s.counts, p, side, w, e, newDh);
    } else {
      PeerEpoch(s, p, e);
      PassedOrNot(s.seed, s.ad, s.keys, s.counts, p, side, e, pos);
      if e == side.epoch + 1 {
        NextEpochDecrypts(s.seed, s.ad, s.keys, s.counts, p, side, w, newDh);
      } else if e == side.epoch - 1 && pos.n >= side.r.nr {
        CurrentDecrypts(s.seed, s.ad, s.keys, s.counts, p, side, w, newDh);
      } else {
        PassedNeverDecrypts(s, p, pos, newDh);
      }
    }
  }

  lemma AcceptedNotEvicted<P>(s: Session<P>, p: Party)
    requires Inv(s)
    ensures s.At(p).accepted !! s.At(p).evicted
  {
    assert SideInv(s.seed, s.ad, s.keys, s.counts, p, s.At(p));
  }

  lemma SentIsProducible<P(!new)>(s: Session<P>, p: Party, pos: Position)
    requires Inv(s) && pos in s.At(p).sent
    ensures Producible(s, s.At(p).sent[pos].cipher)
    ensures pos == Position(s.At(p).sent[pos].header.dh, s.At(p).sent[pos].header.n)
  {
    var e := SentInfo(s.seed, s.ad, s.keys, s.counts, p, s.At(p).sent, pos);
    assert SentCipher(s, p, pos, s.At(p).sent[pos].cipher);
  }

  lemma DeliveredMoves<P>(s: Session<P>, p: Party, header: Header, c: Cipher<P>, newDh: DhKey)
    requires WellFormed(s.At(p).r)
    requires StageDecrypt(s.At(p).r, header, c, s.ad, newDh).Ok?
    ensures var t := DeliverStep(s, p, header, c, newDh);
            && t.At(p).accepted == s.At(p).accepted + {Position(header.dh, header.n)}
            && s.At(p).evicted <= t.At(p).evicted
            && t.At(p).sent == s.At(p).sent && t.At(Peer(p)) == s.At(Peer(p))
  {
  }

  /** A message accepted or evicted before does not decrypt. */
  lemma PassedNeverDecrypts<P(!new)>(s: Session<P>, p: Party, pos: Position, newDh: DhKey)
    requires Inv(s) && pos in s.At(Peer(p)).sent && !Outstanding(s, p, pos) && newDh !in s.keys
    ensures var w := s.At(Peer(p)).sent[pos]; StageDecrypt(s.At(p).r, w.header, w.cipher, s.ad, newDh).Err?
  {
    var w := s.At(Peer(p)).sent[pos];
    SentIsProducible(s, Peer(p), pos);
    if StageDecrypt(s.At(p).r, w.header, w.cipher, s.ad, newDh).Ok? {
      DeliverKeeps(s, p, w.header, w.cipher, newDh);
      DeliveredMoves(s, p, w.header, w.cipher, newDh);
      AcceptedNotEvicted(DeliverStep(s, p, w.header, w.cipher, newDh), p);
    }
  }

  // ── Epochs and chains ─────────────────────────────────────────────────────

  /** The ends' DH epochs differ by exactly one; a receiving chain is a position
      on the chain the peer sent that epoch under, never past its end. */
  lemma ChainsAgree<P>(s: Session<P>, p: Party)
    requires Inv(s)
    ensures var me, peer := s.At(p), s.At(Peer(p));
            && (me.epoch == peer.epoch + 1 || peer.epoch == me.epoch + 1)
            && (me.r.ckr.Some? && me.epoch == peer.epoch + 1 ==>
                  && me.r.dhr == Some(peer.r.dhs) && me.r.nr <= peer.r.ns
                  && peer.r.cks == Some(Advance(me.r.ckr.value, peer.r.ns - me.r.nr)))
            && (me.r.ckr.Some? && peer.epoch == me.epoch + 1 ==>
                  && me.r.nr <= peer.r.pn && peer.r.dhr == Some(me.r.dhs))
  {
    var me, peer := s.At(p), s.At(Peer(p));
    assert SideInv(s.seed, s.ad, s.keys, s.counts, p, me);
    assert SideInv(s.seed, s.ad, s.keys, s.counts, Peer(p), peer);
    if me.epoch >= 2 && me.epoch == peer.epoch + 1 {
      AdvanceAdds(ChainAt(s.seed, s.keys, peer.epoch), me.r.nr, peer.r.ns - me.r.nr);
    }
  }

  // ── Runs ──────────────────────────────────────────────────────────────────

  datatype Action<P> =
    | Send(sender: Party, plaintext: P, nonce: nat)
    | Deliver(receiver: Party, header: Header, cipher: Cipher<P>, newDh: DhKey)

  /** What can happen next: any send, and the delivery of anything the network
      can produce. A fresh DH key is one not used before. */
  ghost predicate Possible<P(!new)>(s: Session<P>, a: Action<P>) {
    a.Deliver? ==> Producible(s, a.cipher) && a.newDh !in s.keys && WellFormed(s.At(a.receiver).r)
  }

  function Step<P>(s: Session<P>, a: Action<P>): Session<P>
    requires a.Deliver? ==> WellFormed(s.At(a.receiver).r)
  {
    match a
    case Send(p, plaintext, nonce) => SendStep(s, p, plaintext, nonce)
    case Deliver(p, header, c, newDh) => DeliverStep(s, p, header, c, newDh)
  }

  /** `states[i]` is the session before action `i`. */
  ghost predicate IsRun<P(!new)>(states: seq<Session<P>>, actions: seq<Action<P>>) {
    && |states| == |actions| + 1
    && (exists seed, ad, bobDh, aliceDh :: bobDh != aliceDh && states[0] == Start(seed, ad, bobDh, aliceDh))
    && forall i :: 0 <= i < |actions| ==> Possible(states[i], actions[i]) && states[i + 1] == Step(states[i], actions[i])
  }

  lemma {:induction false} RunKeepsInv<P(!new)>(states: seq<Session<P>>, actions: seq<Action<P>>, i: nat)
    requires IsRun(states, actions) && i < |states|
    ensures Inv(states[i])
  {
    hide Inv, Producible, SendStep, DeliverStep, Start;
    if i == 0 {
      var seed, ad, bobDh, aliceDh :| bobDh != aliceDh && states[0] == Start(seed, ad, bobDh, aliceDh);
      StartInv<P>(seed, ad, bobDh, aliceDh);
    } else {
      RunKeepsInv(states, actions, i - 1);
      match actions[i - 1]
      case Send(p, plaintext, nonce) => SendKeeps(states[i - 1], p, plaintext, nonce);
      case Deliver(p, header, c, newDh) => DeliverKeeps(states[i - 1], p, header, c, newDh);
    }
  }

  /** Action `i` delivers something that is accepted by `p`. */
  ghost predicate Accepts<P(!new)>(states: seq<Session<P>>, actions: seq<Action<P>>, i: int, p: Party)
    requires IsRun(states, actions) && 0 <= i < |actions|
  {
    && actions[i].Deliver? && actions[i].receiver == p
    && StageDecrypt(states[i].At(p).r, actions[i].header, actions[i].cipher, states[i].ad, actions[i].newDh).Ok?
  }

  /** Action `i` releases message `w` of `p`. */
  ghost predicate Releases<P(!new)>(states: seq<Session<P>>, actions: seq<Action<P>>, i: int, p: Party, w: Wire<P>)
    requires IsRun(states, actions) && 0 <= i < |actions|
  {
    && actions[i].Send? && actions[i].sender == p
    && var e := StageEncrypt(states[i].At(p).r, actions[i].plaintext, states[i].ad, actions[i].nonce);
       e.Ok? && w == Wire(e.value.header, e.value.cipher)
  }

  lemma SendMoves<P>(s: Session<P>, p: Party, plaintext: P, nonce: nat)
    requires s.At(p).epoch < |s.counts|
    ensures var t, staged := SendStep(s, p, plaintext, nonce), StageEncrypt(s.At(p).r, plaintext, s.ad, nonce);
            && t.At(Peer(p)) == s.At(Peer(p))
            && t.At(p).accepted == s.At(p).accepted && t.At(p).evicted == s.At(p).evicted
            && (staged.Err? ==> t == s)
            && (staged.Ok? ==>
                  var e := staged.value;
                  && e.header.dh == s.At(p).r.dhs && e.header.n == s.At(p).r.ns
                  && t.At(p).sent == s.At(p).sent[Position(e.header.dh, e.header.n) := Wire(e.header, e.cipher)])
  {
  }

  /** What one step does to what `p` has accepted and sent. */
  lemma StepEffect<P(!new)>(states: seq<Session<P>>, actions: seq<Action<P>>, i: nat, p: Party)
    requires IsRun(states, actions) && i < |actions|
    ensures var before, after := states[i].At(p), states[i + 1].At(p);
            && after.accepted == before.accepted
                 + (if Accepts(states, actions, i, p) then {Position(actions[i].header.dh, actions[i].header.n)} else {})
            && (forall pos :: pos in before.sent ==> pos in after.sent && after.sent[pos] == before.sent[pos])
            && (forall pos :: pos in after.sent && pos !in before.sent ==> Releases(states, actions, i, p, after.sent[pos]))
            && (forall w :: Releases(states, actions, i, p, w) ==>
                  Position(w.header.dh, w.header.n) in after.sent && after.sent[Position(w.header.dh, w.header.n)] == w)
  {
    var s, a := states[i], actions[i];
    if a.Send? {
      assert s.At(a.sender).epoch < |s.counts| && Position(s.At(a.sender).r.dhs, s.At(a.sender).r.ns) !in s.At(a.sender).sent by {
        RunKeepsInv(states, actions, i);
        NextPositionIsUnused(s, a.sender);
      }
      SendMoves(s, a.sender, a.plaintext, a.nonce);
    } else if StageDecrypt(s.At(a.receiver).r, a.header, a.cipher, s.ad, a.newDh).Ok? {
      DeliveredMoves(s, a.receiver, a.header, a.cipher, a.newDh);
    }
  }

  lemma NextPositionIsUnused<P>(s: Session<P>, p: Party)
    requires Inv(s)
    ensures Position(s.At(p).r.dhs, s.At(p).r.ns) !in s.At(p).sent
    ensures s.At(p).epoch < |s.counts|
  {
    var side := s.At(p);
    assert SideInv(s.seed, s.ad, s.keys, s.counts, p, side);
    var pos := Position(side.r.dhs, side.r.ns);
    if pos in side.sent {
      var e := SentInfo(s.seed, s.ad, s.keys, s.counts, p, side.sent, pos);
    }
  }

  lemma {:induction false} AcceptedStays<P(!new)>(states: seq<Session<P>>, actions: seq<Action<P>>, i: nat, j: nat, p: Party)
    requires IsRun(states, actions) && i <= j < |states|
    ensures states[i].At(p).accepted <= states[j].At(p).accepted
    ensures forall pos :: pos in states[i].At(p).sent ==>
              pos in states[j].At(p).sent && states[j].At(p).sent[pos] == states[i].At(p).sent[pos]
    decreases j - i
  {
    hide Inv, Producible, SendStep, DeliverStep, StageEncrypt, StageDecrypt, Start, WellFormed;
    if i < j {
      AcceptedStays(states, actions, i, j - 1, p);
      StepEffect(states, actions, j - 1, p);
    }
  }

  /** At most once: over a whole run, no end accepts two deliveries with one
      position, whatever their ciphertexts. */
  lemma AtMostOnce<P(!new)>(states: seq<Session<P>>, actions: seq<Action<P>>, i: nat, j: nat, p: Party)
    requires IsRun(states, actions) && i < j < |actions|
    requires Accepts(states, actions, i, p) && Accepts(states, actions, j, p)
    ensures actions[i].header.dh != actions[j].header.dh || actions[i].header.n != actions[j].header.n
  {
    StepEffect(states, actions, i, p);
    AcceptedStays(states, actions, i + 1, j, p);
    RunKeepsInv(states, actions, j);
    DeliverKeeps(states[j], p, actions[j].header, actions[j].cipher, actions[j].newDh);
  }

  lemma {:induction false} SentWasReleased<P(!new)>(states: seq<Session<P>>, actions: seq<Action<P>>, i: nat, p: Party, pos: Position)
      returns (k: nat)
    requires IsRun(states, actions) && i < |states| && pos in states[i].At(p).sent
    ensures k < i && Releases(states, actions, k, p, states[i].At(p).sent[pos])
  {
    hide Step, Possible;
    if i == 0 {
      assert false;
    } else if pos in states[i - 1].At(p).sent {
      StepEffect(states, actions, i - 1, p);
      k := SentWasReleased(states, actions, i - 1, p, pos);
    } else {
      StepEffect(states, actions, i - 1, p);
      k := i - 1;
    }
  }

  /** Integrity over runs: whatever is accepted was released earlier by the peer,
      under exactly that header, and decrypts to what the peer encrypted. */
  lemma AcceptedWasSent<P(!new)>(states: seq<Session<P>>, actions: seq<Action<P>>, i: nat, p: Party) returns (k: nat)
    requires IsRun(states, actions) && i < |actions| && Accepts(states, actions, i, p)
    ensures k < i && Releases(states, actions, k, Peer(p), Wire(actions[i].header, actions[i].cipher))
    ensures StageDecrypt(states[i].At(p).r, actions[i].header, actions[i].cipher, states[i].ad, actions[i].newDh).value.plaintext
              == actions[k].plaintext
  {
    RunKeepsInv(states, actions, i);
    var a := actions[i];
    DecryptIsAuthentic(states[i], p, a.header, a.cipher, a.newDh);
    k := SentWasReleased(states, actions, i, Peer(p), Position(a.header.dh, a.header.n));
  }

  lemma {:induction false} AcceptedHasDelivery<P(!new)>(states: seq<Session<P>>, actions: seq<Action<P>>, i: nat, p: Party, pos: Position)
      returns (j: nat)
    requires IsRun(states, actions) && i < |states| && pos in states[i].At(p).accepted
    ensures j < i && Accepts(states, actions, j, p) && pos == Position(actions[j].header.dh, actions[j].header.n)
  {
    if i == 0 {
      assert false;
    } else {
      StepEffect(states, actions, i - 1, p);
      if pos in states[i - 1].At(p).accepted {
        j := AcceptedHasDelivery(states, actions, i - 1, p, pos);
      } else {
        j := i - 1;
      }
    }
  }

  /** Whether an earlier delivery of the run decrypted this ciphertext. */
  ghost predicate DecryptedBefore<P(!new)>(states: seq<Session<P>>, actions: seq<Action<P>>, i: nat, p: Party, w: Wire<P>)
    requires IsRun(states, actions) && i <= |actions|
  {
    exists j :: 0 <= j < i && Accepts(states, actions, j, p) && Wire(actions[j].header, actions[j].cipher) == w
  }

  lemma AcceptedIffDecrypted<P(!new)>(states: seq<Session<P>>, actions: seq<Action<P>>, k: nat, i: nat, p: Party, w: Wire<P>)
    requires IsRun(states, actions) && k < i <= |actions| && Releases(states, actions, k, Peer(p), w)
    ensures Position(w.header.dh, w.header.n) in states[i].At(p).accepted <==> DecryptedBefore(states, actions, i, p, w)
  {
    var pos := Position(w.header.dh, w.header.n);
    if pos in states[i].At(p).accepted {
      var j := AcceptedHasDelivery(states, actions, i, p, pos);
      var v := Wire(actions[j].header, actions[j].cipher);
      var m := AcceptedWasSent(states, actions, j, p);
      SamePositionSameRelease(states, actions, k, m, i, Peer(p), w, v);
    }
    if DecryptedBefore(states, actions, i, p, w) {
      var j :| 0 <= j < i && Accepts(states, actions, j, p) && Wire(actions[j].header, actions[j].cipher) == w;
      StepEffect(states, actions, j, p);
      AcceptedStays(states, actions, j + 1, i, p);
    }
  }

  /** Agreement over runs: delivering a released message decrypts it, to what was
      encrypted, exactly if no earlier delivery decrypted it, its key was not
      evicted, and it lies within the limits. */
  lemma FirstDelivery<P(!new)>(states: seq<Session<P>>, actions: seq<Action<P>>, k: nat, i: nat, p: Party)
    requires IsRun(states, actions) && k < i < |actions|
    requires actions[i].Deliver? && actions[i].receiver == p
    requires Releases(states, actions, k, Peer(p), Wire(actions[i].header, actions[i].cipher))
    ensures Accepts(states, actions, i, p) <==>
            && !DecryptedBefore(states, actions, i, p, Wire(actions[i].header, actions[i].cipher))
            && Position(actions[i].header.dh, actions[i].header.n) !in states[i].At(p).evicted
            && WithinLimits(states[i].At(p).r, actions[i].header)
    ensures Accepts(states, actions, i, p) ==>
            StageDecrypt(states[i].At(p).r, actions[i].header, actions[i].cipher, states[i].ad, actions[i].newDh).value.plaintext
              == actions[k].plaintext
  {
    var a, pos := actions[i], Position(actions[i].header.dh, actions[i].header.n);
    AcceptedIffDecrypted(states, actions, k, i, p, Wire(a.header, a.cipher));
    assert pos in states[i].At(Peer(p)).sent && states[i].At(Peer(p)).sent[pos] == Wire(a.header, a.cipher) by {
      StepEffect(states, actions, k, Peer(p));
      AcceptedStays(states, actions, k + 1, i, Peer(p));
    }
    assert Inv(states[i]) by {
      RunKeepsInv(states, actions, i);
    }
    Agreement(states[i], p, pos, a.newDh);
  }

  /** No position is released twice. */
  lemma SamePositionSameRelease<P(!new)>(states: seq<Session<P>>, actions: seq<Action<P>>, k: nat, m: nat, i: nat, p: Party,
                                         w: Wire<P>, v: Wire<P>)
    requires IsRun(states, actions) && k < i < |states| && m < i
    requires Releases(states, actions, k, p, w) && Releases(states, actions, m, p, v)
    requires w.header.dh == v.header.dh && w.header.n == v.header.n
    ensures k == m && w == v
  {
    var lo, hi := if k < m then k else m, if k < m then m else k;
    if lo < hi {
      StepEffect(states, actions, lo, p);
      AcceptedStays(states, actions, lo + 1, hi, p);
      RunKeepsInv(states, actions, hi);
      NextPositionIsUnused(states[hi], p);
    }
  }
}

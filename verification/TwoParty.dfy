/** Two ratchets of one session over a network that reorders, loses, repeats and
    forges: agreement, integrity and at-most-once, over every run. */
module TwoParty {
  import opened Prelude
  import opened RatchetFields
  import opened SymbolicKeys
  import opened RatchetModel
  import opened Staging

  // ── The session: both ends and what has passed between them ───────────────

  datatype Party = Alice | Bob

  function Peer(p: Party): Party {
    if p.Alice? then Bob else Alice
  }

  /** Where a message sits: the sender's ratchet key, and its number under it. */
  datatype Position = Position(dh: DhKey, n: nat)

  /** One end. `epoch` numbers the DH ratchet key it sends under; `sent` is what
      it has released; a position it has moved past is in `accepted` (decrypted),
      in `evicted` (its key was dropped by the bounded store) or still held. */
  datatype Side<P> = Side(
    r: RatchetState,
    epoch: nat,
    sent: map<Position, Wire<P>>,
    accepted: set<Position>,
    evicted: set<Position>)

  /** `keys[e]` is the DH ratchet key of epoch `e` (0 is Bob's initial key, 1
      Alice's first), `counts[e]` the number of messages sent under it. */
  datatype Session<P> = Session(
    seed: Seed,
    ad: Ad,
    keys: seq<DhKey>,
    counts: seq<U32>,
    alice: Side<P>,
    bob: Side<P>)
  {
    function At(p: Party): Side<P> {
      if p.Alice? then alice else bob
    }

    function With(p: Party, side: Side<P>): Session<P> {
      if p.Alice? then this.(alice := side) else this.(bob := side)
    }
  }

  function Start<P>(seed: Seed, ad: Ad, bobDh: DhKey, aliceDh: DhKey): Session<P> {
    Session(seed, ad, [bobDh, aliceDh], [0, 0],
            Side(InitAlice(seed, bobDh, aliceDh), 1, map[], {}, {}),
            Side(InitBob(seed, bobDh), 0, map[], {}, {}))
  }

  function SendStep<P>(s: Session<P>, p: Party, plaintext: P, nonce: nat): Session<P> {
    var side := s.At(p);
    match StageEncrypt(side.r, plaintext, s.ad, nonce)
    case Err(_) => s
    case Ok(e) =>
      if side.epoch < |s.counts| then
        s.(counts := s.counts[side.epoch := e.state.ns])
         .With(p, side.(r := e.state,
                        sent := side.sent[Position(e.header.dh, e.header.n) := Wire(e.header, e.cipher)]))
      else s
  }

  function KeysOf(skipped: SkippedKeys): set<Position> {
    set i | 0 <= i < |skipped| :: Position(skipped[i].dh, skipped[i].n)
  }

  /** Whether decrypting under `header` performs a DH ratchet step. */
  predicate Turns(r: RatchetState, header: Header) {
    Find(r.skipped, header.dh, header.n).None? && r.dhr != Some(header.dh)
  }

  /** The positions whose keys a successful decryption evicts. */
  function Drops(r: RatchetState, header: Header, newDh: DhKey): set<Position>
    requires WellFormed(r)
  {
    if Find(r.skipped, header.dh, header.n).Some? then {}
    else if r.dhr == Some(header.dh) then KeysOf(SkipEvicts(r, header.n))
    else
      KeysOf(SkipEvicts(r, header.pn))
      + KeysOf(SkipEvicts(DhRatchetStep(SkipMessageKeys(r, header.pn), header.dh, newDh), header.n))
  }

  function DeliverStep<P>(s: Session<P>, p: Party, header: Header, cipher: Cipher<P>, newDh: DhKey): Session<P>
    requires WellFormed(s.At(p).r)
  {
    var side := s.At(p);
    match StageDecrypt(side.r, header, cipher, s.ad, newDh)
    case Err(_) => s
    case Ok(d) =>
      var moved := side.(r := d.state,
                         accepted := side.accepted + {Position(header.dh, header.n)},
                         evicted := side.evicted + Drops(side.r, header, newDh));
      if Turns(side.r, header) then
        s.(keys := s.keys + [newDh], counts := s.counts + [0])
         .With(p, moved.(epoch := side.epoch + 2))
      else s.With(p, moved)
  }

  // ── Where every key comes from ────────────────────────────────────────────

  /** The root key from which epoch `e` starts. */
  function RootAt(seed: Seed, keys: seq<DhKey>, e: nat): Root
    requires e <= |keys|
  {
    if e <= 1 then FromX3dh(seed)
    else NextRoot(RootAt(seed, keys, e - 1), DiffieHellman(keys[e - 1], keys[e - 2]))
  }

  /** The first chain key of epoch `e`. */
  function ChainAt(seed: Seed, keys: seq<DhKey>, e: nat): Chain
    requires 1 <= e < |keys|
  {
    FirstChain(RootAt(seed, keys, e), DiffieHellman(keys[e], keys[e - 1]))
  }

  function KeyAt(seed: Seed, keys: seq<DhKey>, e: nat, n: nat): MessageKey
    requires 1 <= e < |keys|
  {
    MessageKey(Advance(ChainAt(seed, keys, e), n))
  }

  lemma {:induction false} RootAtSeed(seed: Seed, keys: seq<DhKey>, e: nat)
    requires e <= |keys|
    ensures RootSeed(RootAt(seed, keys, e)) == seed
  {
    if e > 1 {
      RootAtSeed(seed, keys, e - 1);
    }
  }

  lemma KeyAtSeed(seed: Seed, keys: seq<DhKey>, e: nat, n: nat)
    requires 1 <= e < |keys|
    ensures KeySeed(KeyAt(seed, keys, e, n)) == seed
  {
    AdvanceKeepsSeed(ChainAt(seed, keys, e), n);
    RootAtSeed(seed, keys, e);
  }

  lemma {:induction false} RootAtInjective(seed: Seed, keys: seq<DhKey>, e: nat, f: nat)
    requires 1 <= e <= |keys| && 1 <= f <= |keys|
    requires RootAt(seed, keys, e) == RootAt(seed, keys, f)
    ensures e == f
  {
    if e > 1 && f > 1 {
      RootAtInjective(seed, keys, e - 1, f - 1);
    }
  }

  lemma KeyAtInjective(seed: Seed, keys: seq<DhKey>, e: nat, m: nat, f: nat, n: nat)
    requires 1 <= e < |keys| && 1 <= f < |keys|
    requires KeyAt(seed, keys, e, m) == KeyAt(seed, keys, f, n)
    ensures e == f && m == n
  {
    AdvanceInjective(ChainAt(seed, keys, e), ChainAt(seed, keys, f), m, n);
    RootAtInjective(seed, keys, e, f);
  }

  lemma {:induction false} RootAtExtends(seed: Seed, keys: seq<DhKey>, newDh: DhKey, e: nat)
    requires e <= |keys|
    ensures RootAt(seed, keys + [newDh], e) == RootAt(seed, keys, e)
  {
    if e > 1 {
      RootAtExtends(seed, keys, newDh, e - 1);
    }
  }

  // ── The receiving half of one end ─────────────────────────────────────────

  predicate Distinct(keys: seq<DhKey>) {
    forall i, j :: 0 <= i < j < |keys| ==> keys[i] != keys[j]
  }

  /** `pos` lies in epoch `e`, before the point the receiver has reached. */
  predicate PassedAt(keys: seq<DhKey>, counts: seq<U32>, q: nat, nr: U32, e: nat, pos: Position)
    requires |counts| == |keys|
  {
    1 <= e <= q < |keys| && e % 2 == q % 2 && pos.dh == keys[e]
    && pos.n < (if e == q then nr else counts[e])
  }

  ghost predicate Passed(keys: seq<DhKey>, counts: seq<U32>, q: nat, nr: U32, pos: Position)
    requires |counts| == |keys|
  {
    exists e :: PassedAt(keys, counts, q, nr, e, pos)
  }

  ghost predicate HeldRight(seed: Seed, keys: seq<DhKey>, counts: seq<U32>, q: nat, nr: U32, k: Skipped<DhKey, MessageKey>)
    requires |counts| == |keys|
  {
    exists e :: PassedAt(keys, counts, q, nr, e, Position(k.dh, k.n)) && k.mk == KeyAt(seed, keys, e, k.n)
  }

  /** A receiver in epoch `q`: its chain key is its position on the sender's
      chain, every key it holds is the right one, and each position it has
      passed is in exactly one of accepted, evicted and held. */
  ghost predicate Receiving(seed: Seed, keys: seq<DhKey>, counts: seq<U32>, q: nat, r: RatchetState,
                            accepted: set<Position>, evicted: set<Position>)
  {
    && |counts| == |keys| && 1 <= q < |keys| && Distinct(keys)
    && r.dhr == Some(keys[q])
    && r.ckr == Some(Advance(ChainAt(seed, keys, q), r.nr))
    && DistinctKeys(r.skipped)
    && (forall k :: k in r.skipped ==> HeldRight(seed, keys, counts, q, r.nr, k))
    && accepted !! evicted && accepted !! KeysOf(r.skipped) && evicted !! KeysOf(r.skipped)
    && (forall pos :: Passed(keys, counts, q, r.nr, pos) <==> pos in accepted + evicted + KeysOf(r.skipped))
  }

  lemma KeysOfFind(s: SkippedKeys, dh: DhKey, n: U32)
    ensures Find(s, dh, n).Some? <==> Position(dh, n) in KeysOf(s)
  {
  }

  lemma KeysOfAppend(s: SkippedKeys, k: Skipped<DhKey, MessageKey>)
    ensures KeysOf(s + [k]) == KeysOf(s) + {Position(k.dh, k.n)}
  {
    var t := s + [k];
    forall pos | pos in KeysOf(s) + {Position(k.dh, k.n)} ensures pos in KeysOf(t) {
      if pos in KeysOf(s) {
        var i :| 0 <= i < |s| && pos == Position(s[i].dh, s[i].n);
        assert t[i] == s[i];
      } else {
        assert t[|s|] == k;
      }
    }
    forall pos | pos in KeysOf(t) ensures pos in KeysOf(s) + {Position(k.dh, k.n)} {
      var i :| 0 <= i < |t| && pos == Position(t[i].dh, t[i].n);
      if i < |s| {
        assert s[i] == t[i];
      }
    }
  }

  /** Skipping one key moves it from ahead of the receiver to held. */
  lemma SkipOneKeeps(seed: Seed, keys: seq<DhKey>, counts: seq<U32>, q: nat, r: RatchetState,
                     accepted: set<Position>, evicted: set<Position>)
    requires Receiving(seed, keys, counts, q, r, accepted, evicted)
    requires r.nr < U32_MAX
    ensures Receiving(seed, keys, counts, q, SkipOne(r), accepted, evicted)
  {
    var pos := Position(keys[q], r.nr);
    var k := Skipped(keys[q], r.nr, MessageKey(r.ckr.value));
    assert !Passed(keys, counts, q, r.nr, pos);
    KeysOfFind(r.skipped, keys[q], r.nr);
    KeysOfAppend(r.skipped, k);
    var t := SkipOne(r);
    assert t.skipped == r.skipped + [k];
    forall p ensures Passed(keys, counts, q, t.nr, p) <==> Passed(keys, counts, q, r.nr, p) || p == pos {
      if Passed(keys, counts, q, t.nr, p) {
        var e :| PassedAt(keys, counts, q, t.nr, e, p);
        if p != pos {
          assert PassedAt(keys, counts, q, r.nr, e, p);
        }
      }
      if Passed(keys, counts, q, r.nr, p) {
        var e :| PassedAt(keys, counts, q, r.nr, e, p);
        assert PassedAt(keys, counts, q, t.nr, e, p);
      }
      assert PassedAt(keys, counts, q, t.nr, q, pos);
    }
    forall h | h in t.skipped ensures HeldRight(seed, keys, counts, q, t.nr, h) {
      if h in r.skipped {
        var e :| PassedAt(keys, counts, q, r.nr, e, Position(h.dh, h.n)) && h.mk == KeyAt(seed, keys, e, h.n);
        assert PassedAt(keys, counts, q, t.nr, e, Position(h.dh, h.n));
      } else {
        assert PassedAt(keys, counts, q, t.nr, q, pos);
      }
    }
  }

  lemma {:induction false} SkipLoopKeeps(seed: Seed, keys: seq<DhKey>, counts: seq<U32>, q: nat, r: RatchetState,
                                         until: U32, accepted: set<Position>, evicted: set<Position>)
    requires Receiving(seed, keys, counts, q, r, accepted, evicted)
    ensures Receiving(seed, keys, counts, q, SkipLoop(r, until), accepted, evicted)
    decreases until - r.nr
  {
    if r.nr < until {
      SkipOneKeeps(seed, keys, counts, q, r, accepted, evicted);
      SkipLoopKeeps(seed, keys, counts, q, SkipOne(r), until, accepted, evicted);
    }
  }

  lemma KeysOfTrim(s: SkippedKeys, max: nat)
    requires DistinctKeys(s)
    ensures DistinctKeys(Trim(s, max))
    ensures KeysOf(s) == KeysOf(Trim(s, max)) + KeysOf(Evicted(s, max))
    ensures KeysOf(Trim(s, max)) !! KeysOf(Evicted(s, max))
  {
    if |s| > max {
      var cut := |s| - max;
      forall pos | pos in KeysOf(s) ensures pos in KeysOf(Trim(s, max)) + KeysOf(Evicted(s, max)) {
        var i :| 0 <= i < |s| && pos == Position(s[i].dh, s[i].n);
        if i < cut {
          assert Evicted(s, max)[i] == s[i];
        } else {
          assert Trim(s, max)[i - cut] == s[i];
        }
      }
    }
  }

  /** Skipping ahead keeps the invariant; what it drops becomes evicted. */
  lemma SkipKeeps(seed: Seed, keys: seq<DhKey>, counts: seq<U32>, q: nat, r: RatchetState,
                  until: U32, accepted: set<Position>, evicted: set<Position>)
    requires Receiving(seed, keys, counts, q, r, accepted, evicted)
    ensures Receiving(seed, keys, counts, q, SkipMessageKeys(r, until), accepted, evicted + KeysOf(SkipEvicts(r, until)))
  {
    SkipLoopKeeps(seed, keys, counts, q, r, until, accepted, evicted);
    var t := SkipLoop(r, until);
    KeysOfTrim(t.skipped, t.maxSkipped);
  }

  /** Decrypting the next message of the chain. */
  lemma TakeNextKeeps(seed: Seed, keys: seq<DhKey>, counts: seq<U32>, q: nat, r: RatchetState,
                      accepted: set<Position>, evicted: set<Position>)
    requires Receiving(seed, keys, counts, q, r, accepted, evicted)
    requires r.nr < U32_MAX
    ensures Receiving(seed, keys, counts, q, r.(ckr := Some(NextChain(r.ckr.value)), nr := r.nr + 1),
                      accepted + {Position(keys[q], r.nr)}, evicted)
    ensures Position(keys[q], r.nr) !in accepted
  {
    var pos := Position(keys[q], r.nr);
    assert !Passed(keys, counts, q, r.nr, pos);
    var nr := r.nr + 1;
    forall p ensures Passed(keys, counts, q, nr, p) <==> Passed(keys, counts, q, r.nr, p) || p == pos {
      if Passed(keys, counts, q, nr, p) {
        var e :| PassedAt(keys, counts, q, nr, e, p);
        if p != pos {
          assert PassedAt(keys, counts, q, r.nr, e, p);
        }
      }
      if Passed(keys, counts, q, r.nr, p) {
        var e :| PassedAt(keys, counts, q, r.nr, e, p);
        assert PassedAt(keys, counts, q, nr, e, p);
      }
      assert PassedAt(keys, counts, q, nr, q, pos);
    }
    forall h | h in r.skipped ensures HeldRight(seed, keys, counts, q, nr, h) {
      var e :| PassedAt(keys, counts, q, r.nr, e, Position(h.dh, h.n)) && h.mk == KeyAt(seed, keys, e, h.n);
      assert PassedAt(keys, counts, q, nr, e, Position(h.dh, h.n));
    }
  }

  lemma KeysOfSwapRemove(s: SkippedKeys, i: nat)
    requires DistinctKeys(s) && i < |s|
    ensures DistinctKeys(SwapRemove(s, i))
    ensures KeysOf(SwapRemove(s, i)) == KeysOf(s) - {Position(s[i].dh, s[i].n)}
    ensures forall k :: k in SwapRemove(s, i) ==> k in s
  {
    var t := SwapRemove(s, i);
    forall pos | pos in KeysOf(s) - {Position(s[i].dh, s[i].n)} ensures pos in KeysOf(t) {
      var j :| 0 <= j < |s| && pos == Position(s[j].dh, s[j].n);
      assert t[if j == |s| - 1 then i else j] == s[j];
    }
    forall j | 0 <= j < |t| ensures t[j] in s && Position(t[j].dh, t[j].n) in KeysOf(s) - {Position(s[i].dh, s[i].n)} {
      var m := if j == i then |s| - 1 else j;
      assert t[j] == s[m];
      assert Position(s[m].dh, s[m].n) in KeysOf(s);
    }
  }

  /** Decrypting with a held key. */
  lemma TakeHeldKeeps(seed: Seed, keys: seq<DhKey>, counts: seq<U32>, q: nat, r: RatchetState, i: nat,
                      accepted: set<Position>, evicted: set<Position>)
    requires Receiving(seed, keys, counts, q, r, accepted, evicted)
    requires i < |r.skipped|
    ensures Receiving(seed, keys, counts, q, r.(skipped := SwapRemove(r.skipped, i)),
                      accepted + {Position(r.skipped[i].dh, r.skipped[i].n)}, evicted)
    ensures Position(r.skipped[i].dh, r.skipped[i].n) !in accepted
  {
    KeysOfSwapRemove(r.skipped, i);
    assert Position(r.skipped[i].dh, r.skipped[i].n) in KeysOf(r.skipped);
  }

  /** Turning to the peer's next epoch once every position of the old one has
      been passed. */
  lemma TurnKeeps(seed: Seed, keys: seq<DhKey>, counts: seq<U32>, q: nat, r: RatchetState, t: RatchetState,
                  newDh: DhKey, accepted: set<Position>, evicted: set<Position>)
    requires Receiving(seed, keys, counts, q, r, accepted, evicted)
    requires q + 2 == |keys| - 1 && r.nr == counts[q] && newDh !in keys
    requires t.skipped == r.skipped && t.nr == 0 && t.dhr == Some(keys[q + 2])
    requires t.ckr == Some(ChainAt(seed, keys, q + 2))
    ensures Receiving(seed, keys + [newDh], counts + [0], q + 2, t, accepted, evicted)
  {
    var keys', counts' := keys + [newDh], counts + [0];
    RootAtExtends(seed, keys, newDh, q + 2);
    forall p ensures Passed(keys', counts', q + 2, 0, p) <==> Passed(keys, counts, q, r.nr, p) {
      if Passed(keys', counts', q + 2, 0, p) {
        var e :| PassedAt(keys', counts', q + 2, 0, e, p);
        assert PassedAt(keys, counts, q, r.nr, e, p);
      }
      if Passed(keys, counts, q, r.nr, p) {
        var e :| PassedAt(keys, counts, q, r.nr, e, p);
        assert PassedAt(keys', counts', q + 2, 0, e, p);
      }
    }
    forall h | h in t.skipped ensures HeldRight(seed, keys', counts', q + 2, 0, h) {
      var e :| PassedAt(keys, counts, q, r.nr, e, Position(h.dh, h.n)) && h.mk == KeyAt(seed, keys, e, h.n);
      RootAtExtends(seed, keys, newDh, e);
      assert PassedAt(keys', counts', q + 2, 0, e, Position(h.dh, h.n));
    }
  }

  // ── The invariant of a session ────────────────────────────────────────────

  predicate Mine(p: Party, e: nat) {
    e % 2 == if p.Alice? then 1 else 0
  }

  /** Epochs alternate between the parties. */
  lemma Alternate(p: Party, p': Party, e: nat)
    ensures Mine(p, e) ==> Mine(Peer(p), e + 1)
    ensures Mine(p, e) && Mine(p', e) ==> p == p'
    ensures Mine(p, e) && Mine(p', e + 1) ==> p' == Peer(p)
  {
  }

  /** Messages sent under the sender's previous key. */
  function Previous(counts: seq<U32>, e: nat): U32
    requires e < |counts|
  {
    if e >= 2 then counts[e - 2] else 0
  }

  /** `w` is message `n` of epoch `e`, sealed under the key of that position. */
  predicate WireAt<P>(seed: Seed, ad: Ad, keys: seq<DhKey>, counts: seq<U32>, e: nat, n: nat, w: Wire<P>)
    requires |counts| == |keys| && 1 <= e < |keys|
  {
    && w.header.dh == keys[e] && w.header.pn == Previous(counts, e) && w.header.n == n
    && w.cipher.Sealed? && w.cipher.key == KeyAt(seed, keys, e, n)
    && w.cipher.ad == ad && w.cipher.header == w.header
  }

  /** What `p` has sent is exactly one message per position of its epochs. */
  ghost predicate Sending<P>(seed: Seed, ad: Ad, keys: seq<DhKey>, counts: seq<U32>, p: Party, sent: map<Position, Wire<P>>)
    requires |counts| == |keys|
  {
    && (forall pos :: pos in sent ==> exists e :: SentAt(keys, counts, p, e, pos))
    && (forall e, pos :: SentAt(keys, counts, p, e, pos) ==>
          pos in sent && WireAt(seed, ad, keys, counts, e, pos.n, sent[pos]))
  }

  predicate SentAt(keys: seq<DhKey>, counts: seq<U32>, p: Party, e: nat, pos: Position)
    requires |counts| == |keys|
  {
    1 <= e < |keys| && Mine(p, e) && pos.dh == keys[e] && pos.n < counts[e]
  }

  ghost predicate SideInv<P>(seed: Seed, ad: Ad, keys: seq<DhKey>, counts: seq<U32>, p: Party, side: Side<P>)
    requires |counts| == |keys|
  {
    var r, e := side.r, side.epoch;
    && e < |keys| && Mine(p, e) && Resumable(r)
    && r.dhs == keys[e] && r.ns == counts[e] && r.pn == Previous(counts, e)
    && r.rk == RootAt(seed, keys, e + 1)
    && (if e == 0 then r.cks.None? && r.dhr.None?
        else r.cks == Some(Advance(ChainAt(seed, keys, e), r.ns)) && r.dhr == Some(keys[e - 1]))
    && (if e >= 2 then
          Receiving(seed, keys, counts, e - 1, r, side.accepted, side.evicted) && r.nr <= counts[e - 1]
        else r.ckr.None? && r.nr == 0 && r.skipped == [] && side.accepted == {} && side.evicted == {})
    && Sending(seed, ad, keys, counts, p, side.sent)
  }

  ghost predicate Inv<P>(s: Session<P>) {
    && |s.counts| == |s.keys| >= 2 && Distinct(s.keys) && s.counts[0] == 0
    && (s.alice.epoch == s.bob.epoch + 1 || s.bob.epoch == s.alice.epoch + 1)
    && |s.keys| == 1 + (if s.alice.epoch > s.bob.epoch then s.alice.epoch else s.bob.epoch)
    && SideInv(s.seed, s.ad, s.keys, s.counts, Alice, s.alice)
    && SideInv(s.seed, s.ad, s.keys, s.counts, Bob, s.bob)
  }

  lemma InvIsWellFormed<P>(s: Session<P>, p: Party)
    requires Inv(s)
    ensures WellFormed(s.At(p).r)
  {
    assert SideInv(s.seed, s.ad, s.keys, s.counts, p, s.At(p));
  }

  lemma StartInv<P>(seed: Seed, ad: Ad, bobDh: DhKey, aliceDh: DhKey)
    requires bobDh != aliceDh
    ensures Inv<P>(Start(seed, ad, bobDh, aliceDh))
  {
  }

  // ── Sending ───────────────────────────────────────────────────────────────

  lemma ReceivingIgnoresLaterCounts(seed: Seed, keys: seq<DhKey>, counts: seq<U32>, counts': seq<U32>, q: nat,
                                    r: RatchetState, accepted: set<Position>, evicted: set<Position>)
    requires Receiving(seed, keys, counts, q, r, accepted, evicted)
    requires |counts'| == |counts| && counts'[..q] == counts[..q]
    ensures Receiving(seed, keys, counts', q, r, accepted, evicted)
  {
    forall e | 0 <= e < q ensures counts'[e] == counts[e] {
      assert counts'[..q][e] == counts[..q][e];
    }
    forall p ensures Passed(keys, counts', q, r.nr, p) <==> Passed(keys, counts, q, r.nr, p) {
      if Passed(keys, counts, q, r.nr, p) {
        var e :| PassedAt(keys, counts, q, r.nr, e, p);
        assert PassedAt(keys, counts', q, r.nr, e, p);
      }
      if Passed(keys, counts', q, r.nr, p) {
        var e :| PassedAt(keys, counts', q, r.nr, e, p);
        assert PassedAt(keys, counts, q, r.nr, e, p);
      }
    }
    forall h | h in r.skipped ensures HeldRight(seed, keys, counts', q, r.nr, h) {
      var e :| PassedAt(keys, counts, q, r.nr, e, Position(h.dh, h.n)) && h.mk == KeyAt(seed, keys, e, h.n);
      assert PassedAt(keys, counts', q, r.nr, e, Position(h.dh, h.n));
    }
  }

  lemma SentInfo<P>(seed: Seed, ad: Ad, keys: seq<DhKey>, counts: seq<U32>, p: Party,
                    sent: map<Position, Wire<P>>, pos: Position) returns (e: nat)
    requires |counts| == |keys| && Sending(seed, ad, keys, counts, p, sent) && pos in sent
    ensures SentAt(keys, counts, p, e, pos) && WireAt(seed, ad, keys, counts, e, pos.n, sent[pos])
  {
    e :| SentAt(keys, counts, p, e, pos);
  }

  lemma SendingIgnoresPeer<P>(seed: Seed, ad: Ad, keys: seq<DhKey>, counts: seq<U32>, counts': seq<U32>, f: nat,
                              p: Party, sent: map<Position, Wire<P>>)
    requires |counts| == |keys| && f < |counts| && !Mine(p, f)
    requires |counts'| == |counts| && forall e :: 0 <= e < |counts| && e != f ==> counts'[e] == counts[e]
    requires Sending(seed, ad, keys, counts, p, sent)
    ensures Sending(seed, ad, keys, counts', p, sent)
  {
    forall pos | pos in sent ensures exists e :: SentAt(keys, counts', p, e, pos) {
      var e := SentInfo(seed, ad, keys, counts, p, sent, pos);
      assert SentAt(keys, counts', p, e, pos);
    }
    forall e: nat, pos: Position | SentAt(keys, counts', p, e, pos)
      ensures pos in sent && WireAt(seed, ad, keys, counts', e, pos.n, sent[pos])
    {
      assert SentAt(keys, counts, p, e, pos);
    }
  }

  lemma SendingGrows<P>(seed: Seed, ad: Ad, keys: seq<DhKey>, counts: seq<U32>, counts': seq<U32>, f: nat,
                        p: Party, sent: map<Position, Wire<P>>, w: Wire<P>)
    requires |counts| == |keys| && 1 <= f < |counts| && Mine(p, f) && counts[f] < U32_MAX && Distinct(keys)
    requires counts' == counts[f := counts[f] + 1]
    requires forall e :: f < e < |keys| ==> !Mine(p, e)
    requires Sending(seed, ad, keys, counts, p, sent)
    requires WireAt(seed, ad, keys, counts, f, counts[f], w)
    ensures Sending(seed, ad, keys, counts', p, sent[Position(keys[f], counts[f]) := w])
  {
    var here := Position(keys[f], counts[f]);
    var sent' := sent[here := w];
    forall pos | pos in sent' ensures exists e :: SentAt(keys, counts', p, e, pos) {
      if pos == here {
        assert SentAt(keys, counts', p, f, pos);
      } else {
        var e := SentInfo(seed, ad, keys, counts, p, sent, pos);
        assert SentAt(keys, counts', p, e, pos);
      }
    }
    forall e: nat, pos: Position | SentAt(keys, counts', p, e, pos)
      ensures pos in sent' && WireAt(seed, ad, keys, counts', e, pos.n, sent'[pos])
    {
      assert e <= f;
      if pos == here {
        assert e == f;
      } else {
        assert SentAt(keys, counts, p, e, pos);
      }
      assert Previous(counts', e) == Previous(counts, e);
    }
  }

  lemma EncryptSealsAtPosition<P>(seed: Seed, ad: Ad, keys: seq<DhKey>, counts: seq<U32>, f: nat, r: RatchetState,
                                  plaintext: P, nonce: nat)
    requires |counts| == |keys| && 1 <= f < |keys| && Resumable(r)
    requires r.dhs == keys[f] && r.ns == counts[f] && r.pn == Previous(counts, f)
    requires r.cks == Some(Advance(ChainAt(seed, keys, f), r.ns))
    requires StageEncrypt(r, plaintext, ad, nonce).Ok?
    ensures var e := StageEncrypt(r, plaintext, ad, nonce).value;
            && e.state == r.(cks := Some(Advance(ChainAt(seed, keys, f), r.ns + 1)), ns := r.ns + 1)
            && Resumable(e.state)
            && WireAt(seed, ad, keys, counts, f, counts[f], Wire(e.header, e.cipher))
  {
  }

  lemma SenderKeeps<P>(seed: Seed, ad: Ad, keys: seq<DhKey>, counts: seq<U32>, counts': seq<U32>, p: Party,
                       side: Side<P>, side': Side<P>, plaintext: P, nonce: nat)
    requires |counts| == |keys| && Distinct(keys) && SideInv(seed, ad, keys, counts, p, side)
    requires side.epoch >= 1 && forall e :: side.epoch < e < |keys| ==> !Mine(p, e)
    requires counts' == counts[side.epoch := side.r.ns + 1]
    requires StageEncrypt(side.r, plaintext, ad, nonce).Ok?
    requires var e := StageEncrypt(side.r, plaintext, ad, nonce).value;
             side' == side.(r := e.state, sent := side.sent[Position(e.header.dh, e.header.n) := Wire(e.header, e.cipher)])
    ensures SideInv(seed, ad, keys, counts', p, side')
  {
    var e, f := StageEncrypt(side.r, plaintext, ad, nonce).value, side.epoch;
    EncryptSealsAtPosition(seed, ad, keys, counts, f, side.r, plaintext, nonce);
    assert Sending(seed, ad, keys, counts', p, side'.sent) by {
      SendingGrows(seed, ad, keys, counts, counts', f, p, side.sent, Wire(e.header, e.cipher));
    }
    if f >= 2 {
      assert Receiving(seed, keys, counts', f - 1, e.state, side.accepted, side.evicted) by {
        ReceivingIgnoresLaterCounts(seed, keys, counts, counts', f - 1, side.r, side.accepted, side.evicted);
        ReceivingIgnoresSender(seed, keys, counts', f - 1, side.r, e.state, side.accepted, side.evicted);
      }
    }
  }

  lemma ReceivingIgnoresSender(seed: Seed, keys: seq<DhKey>, counts: seq<U32>, q: nat, r: RatchetState, t: RatchetState,
                               accepted: set<Position>, evicted: set<Position>)
    requires Receiving(seed, keys, counts, q, r, accepted, evicted)
    requires t.dhr == r.dhr && t.ckr == r.ckr && t.nr == r.nr && t.skipped == r.skipped
    ensures Receiving(seed, keys, counts, q, t, accepted, evicted)
  {
  }

  lemma PeerOfSenderKeeps<P>(seed: Seed, ad: Ad, keys: seq<DhKey>, counts: seq<U32>, counts': seq<U32>, f: nat,
                             p: Party, side: Side<P>)
    requires |counts| == |keys| && f < |counts| && !Mine(p, f) && side.epoch <= f + 1
    requires |counts'| == |counts| && counts[f] <= counts'[f]
    requires forall e :: 0 <= e < |counts| && e != f ==> counts'[e] == counts[e]
    requires SideInv(seed, ad, keys, counts, p, side)
    ensures SideInv(seed, ad, keys, counts', p, side)
  {
    SendingIgnoresPeer(seed, ad, keys, counts, counts', f, p, side.sent);
    if side.epoch >= 2 {
      ReceivingIgnoresLaterCounts(seed, keys, counts, counts', side.epoch - 1, side.r, side.accepted, side.evicted);
    }
  }

  lemma SendKeeps<P>(s: Session<P>, p: Party, plaintext: P, nonce: nat)
    requires Inv(s)
    ensures Inv(SendStep(s, p, plaintext, nonce))
  {
    hide Receiving, Sending;
    var side, other := s.At(p), s.At(Peer(p));
    var staged := StageEncrypt(side.r, plaintext, s.ad, nonce);
    if staged.Ok? {
      var f := side.epoch;
      var counts' := s.counts[f := side.r.ns + 1];
      var t := SendStep(s, p, plaintext, nonce);
      assert t.counts == counts' && t.At(Peer(p)) == other;
      forall e | f < e < |s.keys| ensures !Mine(p, e) {
      }
      SenderKeeps(s.seed, s.ad, s.keys, s.counts, counts', p, side, t.At(p), plaintext, nonce);
      PeerOfSenderKeeps(s.seed, s.ad, s.keys, s.counts, counts', f, Peer(p), other);
    }
  }

  // ── Receiving: only what the peer sent opens ──────────────────────────────

  /** What the network can produce: anything sealed under keys that do not
      descend from this session's secret, noise, or a copy of a ciphertext either
      end has sent — under any header. */
  ghost predicate Producible<P(!new)>(s: Session<P>, c: Cipher<P>) {
    c.Sealed? && KeySeed(c.key) == s.seed ==> exists p, pos :: SentCipher(s, p, pos, c)
  }

  ghost predicate SentCipher<P>(s: Session<P>, p: Party, pos: Position, c: Cipher<P>) {
    pos in s.At(p).sent && s.At(p).sent[pos].cipher == c
  }

  /** What both ends have sent is consistent with the keys of the session. */
  ghost predicate Logs<P>(s: Session<P>) {
    && |s.counts| == |s.keys| && Distinct(s.keys)
    && Sending(s.seed, s.ad, s.keys, s.counts, Alice, s.alice.sent)
    && Sending(s.seed, s.ad, s.keys, s.counts, Bob, s.bob.sent)
  }

  /** A producible ciphertext under a key of the session is some message sent. */
  lemma SealedWasSent<P(!new)>(s: Session<P>, c: Cipher<P>) returns (p: Party, e: nat, n: nat)
    requires Logs(s) && Producible(s, c)
    requires c.Sealed? && KeySeed(c.key) == s.seed
    ensures 1 <= e < |s.keys| && SentAt(s.keys, s.counts, p, e, Position(s.keys[e], n)) && SentCipher(s, p, Position(s.keys[e], n), c)
    ensures c.key == KeyAt(s.seed, s.keys, e, n) && c.header == Header(s.keys[e], Previous(s.counts, e), n)
    ensures s.At(p).sent[Position(s.keys[e], n)] == Wire(c.header, c)
  {
    var pos;
    p, pos :| SentCipher(s, p, pos, c);
    e := SentInfo(s.seed, s.ad, s.keys, s.counts, p, s.At(p).sent, pos);
    n := pos.n;
  }

  /** A producible ciphertext under the key of a position is the message sent at
      that position. */
  lemma KeyFixesMessage<P(!new)>(s: Session<P>, c: Cipher<P>, e: nat, n: nat, p: Party)
    requires Logs(s) && Producible(s, c) && 1 <= e < |s.keys| && Mine(p, e)
    requires c.Sealed? && c.key == KeyAt(s.seed, s.keys, e, n)
    ensures n < s.counts[e] && c.header == Header(s.keys[e], Previous(s.counts, e), n)
    ensures Position(s.keys[e], n) in s.At(p).sent && s.At(p).sent[Position(s.keys[e], n)] == Wire(c.header, c)
  {
    KeyAtSeed(s.seed, s.keys, e, n);
    var p', f, m := SealedWasSent(s, c);
    KeyAtInjective(s.seed, s.keys, e, n, f, m);
  }

  /** The chain key and counter after skipping ahead. */
  lemma {:induction false} SkipLoopChain(r: RatchetState, until: U32)
    requires r.ckr.Some? && r.dhr.Some?
    ensures SkipLoop(r, until).ckr == Some(Advance(r.ckr.value, SkipLoop(r, until).nr - r.nr))
    decreases until - r.nr
  {
    if r.nr < until {
      SkipLoopChain(SkipOne(r), until);
      AdvanceAdds(r.ckr.value, 1, until - r.nr - 1);
      assert Advance(r.ckr.value, 1) == NextChain(Advance(r.ckr.value, 0));
    }
  }

  /** Without a DH ratchet step: the message is the one the peer sent at the
      header's position in the receiver's current chain. */
  lemma InChainIsAuthentic<P(!new)>(s: Session<P>, p: Party, header: Header, c: Cipher<P>)
    requires Logs(s) && Producible(s, c)
    requires var side := s.At(p);
             && 2 <= side.epoch <= |s.keys| && Mine(p, side.epoch)
             && side.r.dhr.Some? && header.dh == s.keys[side.epoch - 1]
             && side.r.ckr == Some(Advance(ChainAt(s.seed, s.keys, side.epoch - 1), side.r.nr))
    requires DecryptInChain(s.At(p).r, header, c, s.ad).result.Ok?
    ensures var pos := Position(header.dh, header.n);
            pos in s.At(Peer(p)).sent && s.At(Peer(p)).sent[pos] == Wire(header, c)
    ensures s.At(p).r.nr <= header.n < s.counts[s.At(p).epoch - 1]
  {
    var r, q := s.At(p).r, s.At(p).epoch - 1;
    SkipLoopChain(r, header.n);
    var m := SkipLoop(r, header.n).nr;
    AdvanceAdds(ChainAt(s.seed, s.keys, q), r.nr, m - r.nr);
    KeyFixesMessage(s, c, q, m, Peer(p));
  }

  /** The chain a DH ratchet step under `header` would receive on. */
  function TurnedChain(r: RatchetState, dh: DhKey): Chain {
    FirstChain(r.rk, DiffieHellman(r.dhs, dh))
  }

  lemma TurnedKey<P>(r: RatchetState, header: Header, c: Cipher<P>, ad: Ad, newDh: DhKey)
    requires WellFormed(r) && Turns(r, header)
    requires Decrypt(r, header, c, ad, newDh).result.Ok?
    ensures c.Sealed? && c.header == header && c.key == MessageKey(Advance(TurnedChain(r, header.dh), header.n))
    ensures Decrypt(r, header, c, ad, newDh).result == Ok(c.plaintext)
  {
    var d := DhRatchetStep(SkipMessageKeys(r, header.pn), header.dh, newDh);
    if r.ckr.Some? {
      SkipLoopChain(r, header.pn);
    }
    assert d.ckr == Some(TurnedChain(r, header.dh));
    SkipLoopChain(d, header.n);
  }

  lemma TurnedChainIsNext(seed: Seed, keys: seq<DhKey>, r: RatchetState, header: Header, e: nat, f: nat, m: nat)
    requires 1 <= e <= |keys| && 1 <= f < |keys|
    requires r.dhs == keys[e - 1] && r.rk == RootAt(seed, keys, e)
    requires MessageKey(Advance(TurnedChain(r, header.dh), header.n)) == KeyAt(seed, keys, f, m)
    ensures e == f && m == header.n && header.dh == keys[e]
  {
    assert ChainAt(seed, keys, f).FirstChain?;
    AdvanceInjective(TurnedChain(r, header.dh), ChainAt(seed, keys, f), header.n, m);
    RootAtInjective(seed, keys, e, f);
  }

  /** With a DH ratchet step: only the key of the peer's next epoch opens
      anything, and only the message sent at the header's position in it. */
  lemma TurnIsAuthentic<P(!new)>(s: Session<P>, p: Party, header: Header, c: Cipher<P>)
    requires Logs(s) && Producible(s, c)
    requires var side := s.At(p);
             && side.epoch < |s.keys| && Mine(p, side.epoch)
             && side.r.dhs == s.keys[side.epoch] && side.r.rk == RootAt(s.seed, s.keys, side.epoch + 1)
    requires c.Sealed? && c.header == header && c.key == MessageKey(Advance(TurnedChain(s.At(p).r, header.dh), header.n))
    ensures var pos := Position(header.dh, header.n);
            pos in s.At(Peer(p)).sent && s.At(Peer(p)).sent[pos] == Wire(header, c)
    ensures var e := s.At(p).epoch + 1;
            e < |s.keys| && header == Header(s.keys[e], Previous(s.counts, e), header.n) && header.n < s.counts[e]
  {
    var first, e := TurnedChain(s.At(p).r, header.dh), s.At(p).epoch + 1;
    assert KeySeed(c.key) == s.seed by {
      AdvanceKeepsSeed(first, header.n);
      RootAtSeed(s.seed, s.keys, e);
    }
    var p', f, m := SealedWasSent(s, c);
    TurnedChainIsNext(s.seed, s.keys, s.At(p).r, header, e, f, m);
    Alternate(p, p', s.At(p).epoch);
  }

  /** A held key opens only the message sent at its position. */
  lemma HeldIsAuthentic<P(!new)>(s: Session<P>, p: Party, k: Skipped<DhKey, MessageKey>, q: nat, nr: U32, c: Cipher<P>)
    requires Logs(s) && Producible(s, c)
    requires HeldRight(s.seed, s.keys, s.counts, q, nr, k) && !Mine(p, q)
    requires c.Sealed? && c.key == k.mk
    ensures c.header.dh == k.dh && c.header.n == k.n
    ensures var pos := Position(k.dh, k.n);
            pos in s.At(Peer(p)).sent && s.At(Peer(p)).sent[pos] == Wire(c.header, c)
  {
    var e :| PassedAt(s.keys, s.counts, q, nr, e, Position(k.dh, k.n)) && k.mk == KeyAt(s.seed, s.keys, e, k.n);
    KeyFixesMessage(s, c, e, k.n, Peer(p));
  }

  // ── Receiving: the invariant is kept ──────────────────────────────────────

  /** Decrypting message `n` of the current chain, skipping what lies before. */
  lemma ReceiveInChain<P>(seed: Seed, keys: seq<DhKey>, counts: seq<U32>, q: nat, r: RatchetState,
                          header: Header, c: Cipher<P>, ad: Ad, accepted: set<Position>, evicted: set<Position>)
    requires Receiving(seed, keys, counts, q, r, accepted, evicted)
    requires header.dh == keys[q] && r.nr <= header.n < U32_MAX
    requires DecryptInChain(r, header, c, ad).result.Ok?
    ensures var t := DecryptInChain(r, header, c, ad).state;
            && t == r.(ckr := t.ckr, nr := header.n + 1, skipped := t.skipped)
            && Receiving(seed, keys, counts, q, t, accepted + {Position(header.dh, header.n)},
                         evicted + KeysOf(SkipEvicts(r, header.n)))
    ensures Position(header.dh, header.n) !in accepted
  {
    SkipKeeps(seed, keys, counts, q, r, header.n, accepted, evicted);
    TakeNextKeeps(seed, keys, counts, q, SkipMessageKeys(r, header.n), accepted,
                  evicted + KeysOf(SkipEvicts(r, header.n)));
  }

  lemma HeldKeeps<P>(seed: Seed, ad: Ad, keys: seq<DhKey>, counts: seq<U32>, p: Party, side: Side<P>, side': Side<P>, i: nat)
    requires |counts| == |keys| && SideInv(seed, ad, keys, counts, p, side) && i < |side.r.skipped|
    requires side' == side.(r := side.r.(skipped := SwapRemove(side.r.skipped, i)),
                            accepted := side.accepted + {Position(side.r.skipped[i].dh, side.r.skipped[i].n)})
    ensures SideInv(seed, ad, keys, counts, p, side')
    ensures Position(side.r.skipped[i].dh, side.r.skipped[i].n) !in side.accepted
  {
    TakeHeldKeeps(seed, keys, counts, side.epoch - 1, side.r, i, side.accepted, side.evicted);
  }

  lemma InChainKeeps<P>(seed: Seed, ad: Ad, keys: seq<DhKey>, counts: seq<U32>, p: Party, side: Side<P>,
                        header: Header, c: Cipher<P>)
    requires |counts| == |keys| && SideInv(seed, ad, keys, counts, p, side) && side.epoch >= 2
    requires header.dh == keys[side.epoch - 1] && side.r.nr <= header.n < counts[side.epoch - 1]
    requires var a := DecryptInChain(side.r, header, c, ad); a.result.Ok? && Resumable(a.state)
    ensures SideInv(seed, ad, keys, counts, p, MovedInChain(side, header, c, ad))
    ensures Position(header.dh, header.n) !in side.accepted
  {
    ReceiveInChain(seed, keys, counts, side.epoch - 1, side.r, header, c, ad, side.accepted, side.evicted);
  }

  lemma ReceivingExtends(seed: Seed, keys: seq<DhKey>, counts: seq<U32>, q: nat, r: RatchetState, newDh: DhKey,
                         accepted: set<Position>, evicted: set<Position>)
    requires Receiving(seed, keys, counts, q, r, accepted, evicted) && newDh !in keys
    ensures Receiving(seed, keys + [newDh], counts + [0], q, r, accepted, evicted)
  {
    var keys', counts' := keys + [newDh], counts + [0];
    RootAtExtends(seed, keys, newDh, q);
    forall p ensures Passed(keys', counts', q, r.nr, p) <==> Passed(keys, counts, q, r.nr, p) {
      if Passed(keys', counts', q, r.nr, p) {
        var e :| PassedAt(keys', counts', q, r.nr, e, p);
        assert PassedAt(keys, counts, q, r.nr, e, p);
      }
      if Passed(keys, counts, q, r.nr, p) {
        var e :| PassedAt(keys, counts, q, r.nr, e, p);
        assert PassedAt(keys', counts', q, r.nr, e, p);
      }
    }
    forall h | h in r.skipped ensures HeldRight(seed, keys', counts', q, r.nr, h) {
      var e :| PassedAt(keys, counts, q, r.nr, e, Position(h.dh, h.n)) && h.mk == KeyAt(seed, keys, e, h.n);
      RootAtExtends(seed, keys, newDh, e);
      assert PassedAt(keys', counts', q, r.nr, e, Position(h.dh, h.n));
    }
  }

  lemma SendingExtends<P>(seed: Seed, ad: Ad, keys: seq<DhKey>, counts: seq<U32>, newDh: DhKey, p: Party,
                          sent: map<Position, Wire<P>>)
    requires |counts| == |keys| && Sending(seed, ad, keys, counts, p, sent)
    ensures Sending(seed, ad, keys + [newDh], counts + [0], p, sent)
  {
    var keys', counts' := keys + [newDh], counts + [0];
    forall pos | pos in sent ensures exists e :: SentAt(keys', counts', p, e, pos) {
      var e := SentInfo(seed, ad, keys, counts, p, sent, pos);
      assert SentAt(keys', counts', p, e, pos);
    }
    forall e: nat, pos: Position | SentAt(keys', counts', p, e, pos)
      ensures pos in sent && WireAt(seed, ad, keys', counts', e, pos.n, sent[pos])
    {
      assert SentAt(keys, counts, p, e, pos);
      RootAtExtends(seed, keys, newDh, e);
    }
  }

  /** The end that does not turn keeps its invariant when the other one does. */
  lemma SideExtends<P>(seed: Seed, ad: Ad, keys: seq<DhKey>, counts: seq<U32>, newDh: DhKey, p: Party, side: Side<P>)
    requires |counts| == |keys| && SideInv(seed, ad, keys, counts, p, side) && newDh !in keys
    ensures SideInv(seed, ad, keys + [newDh], counts + [0], p, side)
  {
    SendingExtends(seed, ad, keys, counts, newDh, p, side.sent);
    RootAtExtends(seed, keys, newDh, side.epoch + 1);
    RootAtExtends(seed, keys, newDh, side.epoch);
    if side.epoch >= 2 {
      ReceivingExtends(seed, keys, counts, side.epoch - 1, side.r, newDh, side.accepted, side.evicted);
    }
  }

  /** The ratchet right after a genuine DH ratchet step. */
  lemma TurnFields<P>(seed: Seed, ad: Ad, keys: seq<DhKey>, counts: seq<U32>, p: Party, side: Side<P>, newDh: DhKey)
    requires |counts| == |keys| && SideInv(seed, ad, keys, counts, p, side) && newDh !in keys && Distinct(keys)
    requires side.epoch + 2 == |keys| && counts[0] == 0
    ensures var e, keys' := side.epoch + 2, keys + [newDh];
            var t := DhRatchetStep(SkipMessageKeys(side.r, Previous(counts, side.epoch + 1)), keys[side.epoch + 1], newDh);
            && t.dhs == newDh && t.ns == 0 && t.pn == counts[side.epoch] && t.maxSkipped == side.r.maxSkipped
            && t.rk == RootAt(seed, keys', e + 1) && t.cks == Some(ChainAt(seed, keys', e))
            && t.ckr == Some(ChainAt(seed, keys, side.epoch + 1)) && ChainAt(seed, keys, e - 1) == ChainAt(seed, keys', e - 1)
            && t.dhr == Some(keys[side.epoch + 1]) && t.nr == 0
  {
    hide Receiving, Sending;
    var e, keys' := side.epoch + 2, keys + [newDh];
    RootAtExtends(seed, keys, newDh, side.epoch + 1);
    RootAtExtends(seed, keys, newDh, side.epoch + 2);
    assert RootAt(seed, keys', e + 1) == NextRoot(RootAt(seed, keys', e), DiffieHellman(newDh, keys[side.epoch + 1]));
  }

  lemma TurnState<P>(seed: Seed, ad: Ad, keys: seq<DhKey>, counts: seq<U32>, p: Party, side: Side<P>, newDh: DhKey)
    requires |counts| == |keys| && SideInv(seed, ad, keys, counts, p, side) && newDh !in keys && Distinct(keys)
    requires side.epoch + 2 == |keys| && counts[0] == 0
    ensures var e, keys' := side.epoch + 2, keys + [newDh];
            var pn := Previous(counts, side.epoch + 1);
            var s := SkipMessageKeys(side.r, pn);
            var t := DhRatchetStep(s, keys[side.epoch + 1], newDh);
            && t.dhs == newDh && t.ns == 0 && t.pn == counts[side.epoch] && t.maxSkipped == side.r.maxSkipped
            && t.rk == RootAt(seed, keys', e + 1) && t.cks == Some(ChainAt(seed, keys', e))
            && t.dhr == Some(keys[side.epoch + 1]) && t.nr == 0
            && Receiving(seed, keys', counts + [0], e - 1, t, side.accepted, side.evicted + KeysOf(SkipEvicts(side.r, pn)))
  {
    hide RootAt, ChainAt, Sending;
    var e, keys', counts' := side.epoch + 2, keys + [newDh], counts + [0];
    var pn := Previous(counts, side.epoch + 1);
    var s := SkipMessageKeys(side.r, pn);
    var t := DhRatchetStep(s, keys[side.epoch + 1], newDh);
    TurnFields(seed, ad, keys, counts, p, side, newDh);
    if side.epoch >= 2 {
      SkipKeeps(seed, keys, counts, side.epoch - 1, side.r, pn, side.accepted, side.evicted);
      TurnKeeps(seed, keys, counts, side.epoch - 1, s, t, newDh, side.accepted,
                side.evicted + KeysOf(SkipEvicts(side.r, pn)));
    } else {
      FirstReceiving(seed, keys', counts', e - 1, t);
      assert side.evicted + KeysOf(SkipEvicts(side.r, pn)) == {};
    }
  }

  /** The peer's first epoch: nothing has been passed yet. */
  lemma FirstReceiving(seed: Seed, keys: seq<DhKey>, counts: seq<U32>, q: nat, r: RatchetState)
    requires |counts| == |keys| && 1 <= q <= 2 && q < |keys| && Distinct(keys)
    requires r.dhr == Some(keys[q]) && r.ckr == Some(ChainAt(seed, keys, q)) && r.nr == 0 && r.skipped == []
    ensures Receiving(seed, keys, counts, q, r, {}, {})
  {
  }

  /** The ratchet after decrypting the first message seen of the peer's next
      epoch. */
  lemma TurnRatchet<P>(seed: Seed, ad: Ad, keys: seq<DhKey>, counts: seq<U32>, p: Party, side: Side<P>,
                       header: Header, c: Cipher<P>, newDh: DhKey)
    requires |counts| == |keys| && SideInv(seed, ad, keys, counts, p, side) && newDh !in keys && Distinct(keys)
    requires side.epoch + 2 == |keys| && counts[0] == 0 && Turns(side.r, header)
    requires header == Header(keys[side.epoch + 1], Previous(counts, side.epoch + 1), header.n)
    requires header.n < counts[side.epoch + 1]
    requires Decrypt(side.r, header, c, ad, newDh).result.Ok?
    ensures var e, keys' := side.epoch + 2, keys + [newDh];
            var t := Decrypt(side.r, header, c, ad, newDh).state;
            && t.dhs == newDh && t.ns == 0 && t.pn == counts[side.epoch]
            && t.rk == RootAt(seed, keys', e + 1) && t.cks == Some(ChainAt(seed, keys', e))
            && t.dhr == Some(keys[side.epoch + 1]) && t.nr == header.n + 1
            && Receiving(seed, keys', counts + [0], e - 1, t, side.accepted + {Position(header.dh, header.n)},
                         side.evicted + Drops(side.r, header, newDh))
    ensures Position(header.dh, header.n) !in side.accepted
  {
    TurnState(seed, ad, keys, counts, p, side, newDh);
    var t := DhRatchetStep(SkipMessageKeys(side.r, header.pn), header.dh, newDh);
    var evicted := side.evicted + KeysOf(SkipEvicts(side.r, header.pn));
    ReceiveInChain(seed, keys + [newDh], counts + [0], side.epoch + 1, t, header, c, ad, side.accepted, evicted);
    assert side.evicted + Drops(side.r, header, newDh) == evicted + KeysOf(SkipEvicts(t, header.n));
  }

  lemma TurnSideKeeps<P>(seed: Seed, ad: Ad, keys: seq<DhKey>, counts: seq<U32>, p: Party, side: Side<P>,
                         header: Header, c: Cipher<P>, newDh: DhKey)
    requires |counts| == |keys| && SideInv(seed, ad, keys, counts, p, side) && newDh !in keys && Distinct(keys)
    requires side.epoch + 2 == |keys| && counts[0] == 0 && Turns(side.r, header)
    requires header == Header(keys[side.epoch + 1], Previous(counts, side.epoch + 1), header.n)
    requires header.n < counts[side.epoch + 1]
    requires var a := Decrypt(side.r, header, c, ad, newDh); a.result.Ok? && Resumable(a.state)
    ensures SideInv(seed, ad, keys + [newDh], counts + [0], p, MovedByTurn(side, header, c, ad, newDh))
    ensures Position(header.dh, header.n) !in side.accepted
  {
    TurnRatchet(seed, ad, keys, counts, p, side, header, c, newDh);
    SendingExtends(seed, ad, keys, counts, newDh, p, side.sent);
  }

  // One lemma for each way a decryption can succeed.

  lemma Reassemble<P>(s: Session<P>, p: Party, side: Side<P>)
    requires Inv(s) && side.epoch == s.At(p).epoch
    requires SideInv(s.seed, s.ad, s.keys, s.counts, p, side)
    ensures Inv(s.With(p, side))
  {
  }

  lemma DeliverHeld<P(!new)>(s: Session<P>, p: Party, header: Header, c: Cipher<P>, newDh: DhKey, i: nat)
    requires Inv(s) && Find(s.At(p).r.skipped, header.dh, header.n) == Some(i)
    requires StageDecrypt(s.At(p).r, header, c, s.ad, newDh).Ok?
    ensures Inv(DeliverStep(s, p, header, c, newDh))
    ensures Position(header.dh, header.n) !in s.At(p).accepted
  {
    var side := s.At(p);
    var side' := DeliverStep(s, p, header, c, newDh).At(p);
    assert side.evicted + Drops(side.r, header, newDh) == side.evicted;
    HeldKeeps(s.seed, s.ad, s.keys, s.counts, p, side, side', i);
    Reassemble(s, p, side');
  }

  lemma InChainFacts<P(!new)>(s: Session<P>, p: Party, header: Header, c: Cipher<P>, newDh: DhKey)
    requires Inv(s) && Producible(s, c)
    requires Find(s.At(p).r.skipped, header.dh, header.n) == None && !Turns(s.At(p).r, header)
    requires Decrypt(s.At(p).r, header, c, s.ad, newDh).result.Ok?
    ensures var e := s.At(p).epoch;
            e >= 2 && header.dh == s.keys[e - 1] && s.At(p).r.nr <= header.n < s.counts[e - 1]
  {
    assert Logs(s);
    InChainIsAuthentic(s, p, header, c);
  }

  /** The receiver after decrypting in its current chain, or after a turn. */
  function MovedInChain<P>(side: Side<P>, header: Header, c: Cipher<P>, ad: Ad): Side<P>
    requires WellFormed(side.r)
  {
    side.(r := DecryptInChain(side.r, header, c, ad).state,
          accepted := side.accepted + {Position(header.dh, header.n)},
          evicted := side.evicted + KeysOf(SkipEvicts(side.r, header.n)))
  }

  function MovedByTurn<P>(side: Side<P>, header: Header, c: Cipher<P>, ad: Ad, newDh: DhKey): Side<P>
    requires WellFormed(side.r)
  {
    side.(r := Decrypt(side.r, header, c, ad, newDh).state, epoch := side.epoch + 2,
          accepted := side.accepted + {Position(header.dh, header.n)},
          evicted := side.evicted + Drops(side.r, header, newDh))
  }

  lemma StepInChain<P>(s: Session<P>, p: Party, header: Header, c: Cipher<P>, newDh: DhKey)
    requires WellFormed(s.At(p).r) && Find(s.At(p).r.skipped, header.dh, header.n) == None && !Turns(s.At(p).r, header)
    requires StageDecrypt(s.At(p).r, header, c, s.ad, newDh).Ok?
    ensures var side, a := s.At(p), DecryptInChain(s.At(p).r, header, c, s.ad);
            && a.result.Ok? && Resumable(a.state)
            && DeliverStep(s, p, header, c, newDh) == s.With(p, MovedInChain(side, header, c, s.ad))
  {
  }

  lemma StepTurn<P>(s: Session<P>, p: Party, header: Header, c: Cipher<P>, newDh: DhKey)
    requires WellFormed(s.At(p).r) && Turns(s.At(p).r, header)
    requires StageDecrypt(s.At(p).r, header, c, s.ad, newDh).Ok?
    ensures var side, a := s.At(p), Decrypt(s.At(p).r, header, c, s.ad, newDh);
            && a.result.Ok? && Resumable(a.state)
            && DeliverStep(s, p, header, c, newDh)
               == s.(keys := s.keys + [newDh], counts := s.counts + [0])
                   .With(p, MovedByTurn(side, header, c, s.ad, newDh))
  {
  }

  lemma DeliverInChain<P(!new)>(s: Session<P>, p: Party, header: Header, c: Cipher<P>, newDh: DhKey)
    requires Inv(s) && Producible(s, c)
    requires Find(s.At(p).r.skipped, header.dh, header.n) == None && !Turns(s.At(p).r, header)
    requires StageDecrypt(s.At(p).r, header, c, s.ad, newDh).Ok?
    ensures Inv(DeliverStep(s, p, header, c, newDh))
    ensures Position(header.dh, header.n) !in s.At(p).accepted
  {
    hide Producible, SideInv, DeliverStep, Turns, Find, Decrypt, Distinct;
    InvIsWellFormed(s, p);
    InChainFacts(s, p, header, c, newDh);
    StepInChain(s, p, header, c, newDh);
    InChainKeeps(s.seed, s.ad, s.keys, s.counts, p, s.At(p), header, c);
    Reassemble(s, p, MovedInChain(s.At(p), header, c, s.ad));
  }

  lemma TurnNamesNextEpoch<P(!new)>(s: Session<P>, p: Party, header: Header, c: Cipher<P>, newDh: DhKey)
    requires Inv(s) && Producible(s, c) && Turns(s.At(p).r, header)
    requires Decrypt(s.At(p).r, header, c, s.ad, newDh).result.Ok?
    ensures var e := s.At(p).epoch + 1;
            e + 1 == |s.keys| && header == Header(s.keys[e], Previous(s.counts, e), header.n) && header.n < s.counts[e]
  {
    TurnedKey(s.At(p).r, header, c, s.ad, newDh);
    assert Logs(s);
    TurnIsAuthentic(s, p, header, c);
  }

  lemma ReassembleTurn<P>(s: Session<P>, p: Party, side: Side<P>, newDh: DhKey)
    requires Inv(s) && newDh !in s.keys && s.At(p).epoch + 2 == |s.keys| && side.epoch == s.At(p).epoch + 2
    requires SideInv(s.seed, s.ad, s.keys + [newDh], s.counts + [0], p, side)
    ensures Inv(s.(keys := s.keys + [newDh], counts := s.counts + [0]).With(p, side))
  {
    SideExtends(s.seed, s.ad, s.keys, s.counts, newDh, Peer(p), s.At(Peer(p)));
  }

  lemma TurnedInv<P>(s: Session<P>, p: Party, header: Header, c: Cipher<P>, newDh: DhKey)
    requires Inv(s) && newDh !in s.keys && Turns(s.At(p).r, header)
    requires var e := s.At(p).epoch + 1;
             e + 1 == |s.keys| && header == Header(s.keys[e], Previous(s.counts, e), header.n) && header.n < s.counts[e]
    requires var a := Decrypt(s.At(p).r, header, c, s.ad, newDh); a.result.Ok? && Resumable(a.state)
    ensures Inv(s.(keys := s.keys + [newDh], counts := s.counts + [0]).With(p, MovedByTurn(s.At(p), header, c, s.ad, newDh)))
    ensures Position(header.dh, header.n) !in s.At(p).accepted
  {
    hide Turns, Resumable, SideInv, Distinct, Decrypt;
    InvIsWellFormed(s, p);
    TurnSideKeeps(s.seed, s.ad, s.keys, s.counts, p, s.At(p), header, c, newDh);
    ReassembleTurn(s, p, MovedByTurn(s.At(p), header, c, s.ad, newDh), newDh);
  }

  lemma DeliverTurn<P(!new)>(s: Session<P>, p: Party, header: Header, c: Cipher<P>, newDh: DhKey)
    requires Inv(s) && Producible(s, c) && newDh !in s.keys && Turns(s.At(p).r, header)
    requires StageDecrypt(s.At(p).r, header, c, s.ad, newDh).Ok?
    ensures Inv(DeliverStep(s, p, header, c, newDh))
    ensures Position(header.dh, header.n) !in s.At(p).accepted
  {
    TurnNamesNextEpoch(s, p, header, c, newDh);
    StepTurn(s, p, header, c, newDh);
    TurnedInv(s, p, header, c, newDh);
  }

  /** Every delivery, genuine or not, keeps the invariant; a success is the
      first for its position. */
  lemma DeliverKeeps<P(!new)>(s: Session<P>, p: Party, header: Header, c: Cipher<P>, newDh: DhKey)
    requires Inv(s) && Producible(s, c) && newDh !in s.keys
    ensures Inv(DeliverStep(s, p, header, c, newDh))
    ensures StageDecrypt(s.At(p).r, header, c, s.ad, newDh).Ok? ==> Position(header.dh, header.n) !in s.At(p).accepted
  {
    if StageDecrypt(s.At(p).r, header, c, s.ad, newDh).Ok? {
      match Find(s.At(p).r.skipped, header.dh, header.n)
      case Some(i) => DeliverHeld(s, p, header, c, newDh, i);
      case None =>
        if Turns(s.At(p).r, header) {
          DeliverTurn(s, p, header, c, newDh);
        } else {
          DeliverInChain(s, p, header, c, newDh);
        }
    }
  }

  /** Integrity: whatever header and ciphertext the network presents, a success
      is the peer's own message at that position, with its plaintext. */
  lemma DecryptIsAuthentic<P(!new)>(s: Session<P>, p: Party, header: Header, c: Cipher<P>, newDh: DhKey)
    requires Inv(s) && Producible(s, c)
    requires Decrypt(s.At(p).r, header, c, s.ad, newDh).result.Ok?
    ensures var pos := Position(header.dh, header.n);
            && pos in s.At(Peer(p)).sent && s.At(Peer(p)).sent[pos] == Wire(header, c)
    ensures c.Sealed? && Decrypt(s.At(p).r, header, c, s.ad, newDh).result == Ok(c.plaintext)
  {
    match Find(s.At(p).r.skipped, header.dh, header.n)
    case Some(i) => HeldOpensOwn(s, p, header, c, i);
    case None =>
      assert Logs(s);
      if Turns(s.At(p).r, header) {
        TurnedKey(s.At(p).r, header, c, s.ad, newDh);
        TurnIsAuthentic(s, p, header, c);
      } else {
        InChainIsAuthentic(s, p, header, c);
      }
  }

  lemma HeldOpensOwn<P(!new)>(s: Session<P>, p: Party, header: Header, c: Cipher<P>, i: nat)
    requires Inv(s) && Producible(s, c) && Find(s.At(p).r.skipped, header.dh, header.n) == Some(i)
    requires Open(s.At(p).r.skipped[i].mk, c, s.ad, header).Ok?
    ensures var pos := Position(header.dh, header.n);
            && pos in s.At(Peer(p)).sent && s.At(Peer(p)).sent[pos] == Wire(header, c)
  {
    var side := s.At(p);
    assert Logs(s);
    assert side.r.skipped[i] in side.r.skipped;
    HeldIsAuthentic(s, p, side.r.skipped[i], side.epoch - 1, side.r.nr, c);
  }
}

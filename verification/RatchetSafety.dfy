/** What one ratchet keeps under arbitrary inputs: the structural rules of its
    checkpoints, and the exact bound below which no counter wraps. */
module RatchetSafety {
  import opened Prelude
  import opened RatchetFields
  import opened SymbolicKeys
  import opened RatchetModel
  import opened Staging

  // ── Structural rules ──────────────────────────────────────────────────────

  lemma {:induction false} SkipLoopKeepsStructure(r: RatchetState, until: U32)
    requires r.ckr.Some? && r.dhr.Some? && DistinctKeys(r.skipped)
    ensures DistinctKeys(SkipLoop(r, until).skipped)
    decreases until - r.nr
  {
    if r.nr < until {
      var s := SkipOne(r);
      InsertKeepsDistinct(r.skipped, Skipped(r.dhr.value, r.nr, KdfCk(r.ckr.value).1));
      SkipLoopKeepsStructure(s, until);
    }
  }

  lemma SkipKeepsStructure(r: RatchetState, until: U32)
    requires Structural(r)
    ensures Structural(SkipMessageKeys(r, until))
    ensures var s := SkipMessageKeys(r, until); s == r.(ckr := s.ckr, skipped := s.skipped, nr := s.nr)
    ensures SkipMessageKeys(r, until).ckr.Some? <==> r.ckr.Some?
  {
    if r.ckr.Some? {
      SkipLoopKeepsStructure(r, until);
    }
  }

  lemma DecryptInChainKeepsStructure<P>(r: RatchetState, header: Header, cipher: Cipher<P>, ad: Ad)
    requires Structural(r)
    ensures Structural(DecryptInChain(r, header, cipher, ad).state)
  {
    SkipKeepsStructure(r, header.n);
  }

  /** A state the constructors and operations produce. */
  datatype Operation<P> =
    | EncryptOp(plaintext: P, ad: Ad, nonce: nat)
    | DecryptOp(header: Header, cipher: Cipher<P>, adr: Ad, newDh: DhKey)

  function Perform<P>(r: RatchetState, op: Operation<P>): RatchetState
    requires WellFormed(r)
  {
    match op
    case EncryptOp(plaintext, ad, nonce) =>
      (match Encrypt(r, plaintext, ad, nonce) case Ok(e) => e.state case Err(_) => r)
    case DecryptOp(header, cipher, ad, newDh) => Decrypt(r, header, cipher, ad, newDh).state
  }

  lemma PerformKeepsStructure<P>(r: RatchetState, op: Operation<P>)
    requires Structural(r)
    ensures Structural(Perform(r, op))
  {
    if op.DecryptOp? {
      var h := op.header;
      match Find(r.skipped, h.dh, h.n)
      case Some(i) =>
        SwapRemoveKeepsDistinct(r.skipped, i);
      case None =>
        SkipKeepsStructure(r, h.pn);
        if r.dhr == Some(h.dh) {
          DecryptInChainKeepsStructure(r, h, op.cipher, op.adr);
        } else {
          var d := DhRatchetStep(SkipMessageKeys(r, h.pn), h.dh, op.newDh);
          DecryptInChainKeepsStructure(d, h, op.cipher, op.adr);
        }
    }
  }

  ghost predicate Reachable<P(!new)>(r: RatchetState, ops: seq<Operation<P>>)
    decreases |ops|
  {
    if ops == [] then
      || (exists seed, dh, newDh :: r == InitAlice(seed, dh, newDh))
      || (exists seed, dh :: r == InitBob(seed, dh))
    else
      exists prev :: Reachable(prev, ops[..|ops| - 1]) && WellFormed(prev) && r == Perform(prev, ops[|ops| - 1])
  }

  /** Every reachable state obeys the structural rules: it can be refused by the
      checkpoint only for an exhausted counter. */
  lemma {:induction false} ReachableIsStructural<P(!new)>(r: RatchetState, ops: seq<Operation<P>>)
    requires Reachable(r, ops)
    ensures Structural(r)
    ensures Refusal(r).Some? ==> Refusal(r).value.CounterExhausted?
    decreases |ops|
  {
    if ops != [] {
      var prev :| Reachable(prev, ops[..|ops| - 1]) && WellFormed(prev) && r == Perform(prev, ops[|ops| - 1]);
      ReachableIsStructural(prev, ops[..|ops| - 1]);
      PerformKeepsStructure(prev, ops[|ops| - 1]);
    }
  }

  // ── Counters ──────────────────────────────────────────────────────────────

  /** Encrypting increments `ns` past `u32::MAX`. */
  predicate SendWraps(r: RatchetState) {
    r.cks.Some? && r.ns == U32_MAX
  }

  /** Decrypting a message with this header, authentic or not, reaches the
      increment of `nr` with `nr == u32::MAX`. */
  predicate ReceiveWraps(r: RatchetState, header: Header)
    requires WellFormed(r)
  {
    && Find(r.skipped, header.dh, header.n).None?
    && if r.dhr == Some(header.dh) then ChainWraps(r, header.n)
       else WithinSkipLimit(r.nr, header.pn)
            && ChainWraps(DhRatchetStep(SkipMessageKeys(r, header.pn), header.dh, 0), header.n)
  }

  predicate ChainWraps(r: RatchetState, n: U32)
    requires WellFormed(r)
  {
    WithinSkipLimit(r.nr, n) && r.ckr.Some? && SkipMessageKeys(r, n).nr == U32_MAX
  }

  /** No accepted state can be driven past a counter, by any header. */
  lemma ResumableNeverWraps(r: RatchetState, header: Header)
    requires WellFormed(r) && Resumable(r)
    ensures !SendWraps(r) && !ReceiveWraps(r, header)
  {
  }

  /** The largest receive counter from which no header makes `nr` wrap, whatever
      the rest of the state, is exactly `MAX_RESUMABLE_NR`. */
  lemma ReceiveBoundIsExact(bound: U32)
    ensures (forall r: RatchetState, header: Header ::
               WellFormed(r) && Structural(r) && r.nr <= bound ==> !ReceiveWraps(r, header))
            <==> bound <= MAX_RESUMABLE_NR
  {
    if bound > MAX_RESUMABLE_NR {
      var ck := FirstChain(FromX3dh(Outside(0)), Shared(0, 0));
      var r := State(0, Some(1), FromX3dh(Outside(0)), Some(ck), Some(ck),
                     0, MAX_RESUMABLE_NR + 1, 0, [], MAX_SKIPPED_KEYS);
      assert Structural(r) && ReceiveWraps(r, Header(1, 0, U32_MAX));
    }
  }

  // ── When a transition can be staged ───────────────────────────────────────

  /** A state the ratchet produces can be stored, and read back, exactly below
      these two bounds: 2^32 - 1 messages sent on a chain, and 1001 fewer received. */
  lemma ResumableExactly(r: RatchetState)
    requires Structural(r)
    ensures Resumable(r) <==> r.ns < 0xFFFF_FFFF && r.nr <= 0xFFFF_FFFF - 1001
    ensures !Resumable(r) ==> Refusal(r) == Some(CounterExhausted(if r.ns == 0xFFFF_FFFF then CounterNs else CounterNr))
  {
  }

  /** From a state that can be stored an encryption can be staged exactly if there
      is a sending chain and the counter does not reach its end. */
  lemma EncryptStagesExactly<P>(r: RatchetState, plaintext: P, ad: Ad, nonce: nat)
    requires Resumable(r)
    ensures StageEncrypt(r, plaintext, ad, nonce).Ok? <==> r.cks.Some? && r.ns < 0xFFFF_FFFE
    ensures StageEncrypt(r, plaintext, ad, nonce).Err? ==>
              StageEncrypt(r, plaintext, ad, nonce).error
              == if r.cks.None? then RatchetRefused(NotInitialized) else CheckpointRefused(CounterExhausted(CounterNs))
  {
  }

  /** How far a chain may be skipped ahead: 1000 messages. */
  lemma SkipLimitExactly(nr: U32, until: U32)
    ensures WithinSkipLimit(nr, until) <==> until <= nr + 1000
  {
  }

  /** A decryption that authenticates can be staged exactly if its message was held
      or the chain it moves stays below the receive bound. */
  lemma DecryptStagesExactly<P>(r: RatchetState, header: Header, cipher: Cipher<P>, ad: Ad, newDh: DhKey)
    requires WellFormed(r) && Structural(r) && Resumable(r)
    requires Decrypt(r, header, cipher, ad, newDh).result.Ok?
    ensures var nr := if r.dhr == Some(header.dh) then r.nr else 0;
            StageDecrypt(r, header, cipher, ad, newDh).Ok?
            <==> HoldsKey(r.skipped, header.dh, header.n) || (if nr > header.n then nr else header.n) < 0xFFFF_FFFF - 1001
  {
    var a := Decrypt(r, header, cipher, ad, newDh);
    PerformKeepsStructure(r, DecryptOp(header, cipher, ad, newDh));
    ResumableExactly(a.state);
    hide Structural, Resumable;
    CountersAfter(r, header, cipher, ad, newDh);
  }

  /** What a successful decryption does to the counters. */
  lemma CountersAfter<P>(r: RatchetState, header: Header, cipher: Cipher<P>, ad: Ad, newDh: DhKey)
    requires WellFormed(r) && r.ns < 0xFFFF_FFFF && r.nr <= 0xFFFF_FFFF - 1001
    requires Decrypt(r, header, cipher, ad, newDh).result.Ok?
    ensures var (a, nr) := (Decrypt(r, header, cipher, ad, newDh).state, if r.dhr == Some(header.dh) then r.nr else 0);
            if HoldsKey(r.skipped, header.dh, header.n) then a.nr == r.nr && a.ns == r.ns
            else a.nr == Increment32(if nr > header.n then nr else header.n)
                 && a.ns == if r.dhr == Some(header.dh) then r.ns else 0
  {
  }
}

/** Key material as symbolic terms. A Diffie-Hellman key pair is named by a
    number, which names its secret and its public half alike; every derivation
    is a constructor, so two derivations agree only if their inputs do. */
module SymbolicKeys {
  import opened Prelude

  type Identity = nat
  type DhKey = nat

  /** The X3DH result: the root both sides of one handshake derive, or a secret
      of anybody else. */
  datatype Seed =
    | Handshake(initiator: Identity, responder: Identity, ephemeral: DhKey, signedPrekey: DhKey,
                oneTimePrekey: Option<DhKey>)
    | Outside(secret: nat)

  datatype Shared = Shared(lo: DhKey, hi: DhKey)
  datatype Root = FromX3dh(seed: Seed) | NextRoot(rk: Root, dh: Shared)
  datatype Chain = FirstChain(rk: Root, dh: Shared) | NextChain(ck: Chain)
  datatype MessageKey = MessageKey(ck: Chain)

  /** X25519: the same secret from either side. */
  function DiffieHellman(secret: DhKey, public: DhKey): Shared {
    if secret <= public then Shared(secret, public) else Shared(public, secret)
  }

  function KdfRk(rk: Root, dh: Shared): (Root, Chain) {
    (NextRoot(rk, dh), FirstChain(rk, dh))
  }

  function KdfCk(ck: Chain): (Chain, MessageKey) {
    (NextChain(ck), MessageKey(ck))
  }

  function RootSeed(rk: Root): Seed {
    match rk
    case FromX3dh(seed) => seed
    case NextRoot(prev, _) => RootSeed(prev)
  }

  function ChainSeed(ck: Chain): Seed {
    match ck
    case FirstChain(rk, _) => RootSeed(rk)
    case NextChain(prev) => ChainSeed(prev)
  }

  /** The X3DH secret a message key descends from. */
  function KeySeed(mk: MessageKey): Seed {
    ChainSeed(mk.ck)
  }

  /** The chain key `n` steps after `ck`. */
  function Advance(ck: Chain, n: nat): Chain {
    if n == 0 then ck else NextChain(Advance(ck, n - 1))
  }

  lemma {:induction false} AdvanceAdds(ck: Chain, a: nat, b: nat)
    ensures Advance(Advance(ck, a), b) == Advance(ck, a + b)
  {
    if b > 0 {
      AdvanceAdds(ck, a, b - 1);
    }
  }

  lemma {:induction false} AdvanceKeepsSeed(ck: Chain, n: nat)
    ensures ChainSeed(Advance(ck, n)) == ChainSeed(ck)
  {
    if n > 0 {
      AdvanceKeepsSeed(ck, n - 1);
    }
  }

  /** A chain key determines the chain it belongs to and its position in it. */
  lemma {:induction false} AdvanceInjective(a: Chain, b: Chain, m: nat, n: nat)
    requires a.FirstChain? && b.FirstChain?
    requires Advance(a, m) == Advance(b, n)
    ensures a == b && m == n
  {
    if m > 0 && n > 0 {
      AdvanceInjective(a, b, m - 1, n - 1);
    }
  }
}

/** What each operation of `ratchet.rs` computes. */
module RatchetModel {
  import opened Prelude
  import opened RatchetFields
  import opened SymbolicKeys

  type RatchetState = State<DhKey, Root, Chain, MessageKey>
  type SkippedKeys = seq<Skipped<DhKey, MessageKey>>

  datatype Header = Header(dh: DhKey, pn: U32, n: U32)

  /** Associated data of a session: initiator key, then responder key. */
  datatype Ad = Ad(initiator: Identity, responder: Identity)

  /** A ciphertext opens only under its own key and associated data, which
      includes the header. */
  datatype Cipher<P> =
    | Sealed(key: MessageKey, ad: Ad, header: Header, nonce: nat, plaintext: P)
    | Noise(bytes: nat)

  datatype RatchetError = Decryption | SkipLimit | NotInitialized

  // ── What the operations compute ───────────────────────────────────────────

  function InitAlice(seed: Seed, theirInitialDh: DhKey, newDh: DhKey): RatchetState {
    var (rk, cks) := KdfRk(FromX3dh(seed), DiffieHellman(newDh, theirInitialDh));
    State(newDh, Some(theirInitialDh), rk, Some(cks), None, 0, 0, 0, [], MAX_SKIPPED_KEYS)
  }

  function InitBob(seed: Seed, ourInitialDh: DhKey): RatchetState {
    State(ourInitialDh, None, FromX3dh(seed), None, None, 0, 0, 0, [], MAX_SKIPPED_KEYS)
  }

  /** The receiving chain of a well-formed ratchet belongs to a known peer key. */
  predicate WellFormed(r: RatchetState) {
    r.ckr.Some? ==> r.dhr.Some?
  }

  datatype Encrypted<P> = Encrypted(state: RatchetState, header: Header, cipher: Cipher<P>)

  function Encrypt<P>(r: RatchetState, plaintext: P, ad: Ad, nonce: nat): Result<Encrypted<P>, RatchetError> {
    if r.cks.None? then Err(NotInitialized)
    else
      var (cks, mk) := KdfCk(r.cks.value);
      var header := Header(r.dhs, r.pn, r.ns);
      Ok(Encrypted(r.(cks := Some(cks), ns := Increment32(r.ns)),
                   header,
                   Sealed(mk, ad, header, nonce, plaintext)))
  }

  function Open<P>(mk: MessageKey, cipher: Cipher<P>, ad: Ad, header: Header): Result<P, RatchetError> {
    if cipher.Sealed? && cipher.key == mk && cipher.ad == ad && cipher.header == header
    then Ok(cipher.plaintext)
    else Err(Decryption)
  }

  /** `nr.saturating_add(MAX_SKIP) >= until`. */
  predicate WithinSkipLimit(nr: U32, until: U32) {
    var limit := if nr + MAX_SKIP > U32_MAX then U32_MAX else nr + MAX_SKIP;
    until <= limit
  }

  /** One iteration of the skip loop: store the key at `nr` and step past it. */
  function SkipOne(r: RatchetState): RatchetState
    requires r.ckr.Some? && r.dhr.Some? && r.nr < U32_MAX
  {
    var (ckr, mk) := KdfCk(r.ckr.value);
    r.(ckr := Some(ckr), skipped := Insert(r.skipped, Skipped(r.dhr.value, r.nr, mk)), nr := r.nr + 1)
  }

  function SkipLoop(r: RatchetState, until: U32): (s: RatchetState)
    requires r.ckr.Some? && r.dhr.Some?
    ensures s.ckr.Some? && s == r.(ckr := s.ckr, skipped := s.skipped, nr := s.nr)
    ensures s.nr == if r.nr < until then until else r.nr
    decreases until - r.nr
  {
    if r.nr < until then SkipLoop(SkipOne(r), until) else r
  }

  /** The state after skipping ahead to `until`, if the limit allows it. */
  function SkipMessageKeys(r: RatchetState, until: U32): (s: RatchetState)
    requires WellFormed(r)
    ensures WellFormed(s)
  {
    if r.ckr.None? then r
    else
      var s := SkipLoop(r, until);
      s.(skipped := Trim(s.skipped, s.maxSkipped))
  }

  /** The keys that skipping ahead to `until` evicts. */
  function SkipEvicts(r: RatchetState, until: U32): SkippedKeys
    requires WellFormed(r)
  {
    if r.ckr.None? then []
    else
      var s := SkipLoop(r, until);
      Evicted(s.skipped, s.maxSkipped)
  }

  function DhRatchetStep(r: RatchetState, newDhr: DhKey, newDh: DhKey): RatchetState {
    var (rk1, ckr) := KdfRk(r.rk, DiffieHellman(r.dhs, newDhr));
    var (rk2, cks) := KdfRk(rk1, DiffieHellman(newDh, newDhr));
    r.(pn := r.ns, ns := 0, nr := 0, dhr := Some(newDhr), dhs := newDh,
       rk := rk2, ckr := Some(ckr), cks := Some(cks))
  }

  /** The mutated state a decryption leaves before any rollback, and its result. */
  datatype Attempt<P> = Attempt(state: RatchetState, result: Result<P, RatchetError>)

  /** Steps 3 and 4 of decryption: skip ahead in the current chain, derive the
      message key, open the ciphertext. */
  function DecryptInChain<P>(r: RatchetState, header: Header, cipher: Cipher<P>, ad: Ad): (a: Attempt<P>)
    requires WellFormed(r)
    ensures WellFormed(a.state)
  {
    if !WithinSkipLimit(r.nr, header.n) then Attempt(r, Err(SkipLimit))
    else
      var s := SkipMessageKeys(r, header.n);
      if s.ckr.None? then Attempt(s, Err(NotInitialized))
      else
        var (ckr, mk) := KdfCk(s.ckr.value);
        Attempt(s.(ckr := Some(ckr), nr := Increment32(s.nr)), Open(mk, cipher, ad, header))
  }

  function DecryptInner<P>(r: RatchetState, header: Header, cipher: Cipher<P>, ad: Ad, newDh: DhKey): (a: Attempt<P>)
    requires WellFormed(r)
    ensures WellFormed(a.state)
  {
    match Find(r.skipped, header.dh, header.n)
    case Some(i) =>
      Attempt(r.(skipped := SwapRemove(r.skipped, i)), Open(r.skipped[i].mk, cipher, ad, header))
    case None =>
      if r.dhr == Some(header.dh) then DecryptInChain(r, header, cipher, ad)
      else if !WithinSkipLimit(r.nr, header.pn) then Attempt(r, Err(SkipLimit))
      else
        var s := SkipMessageKeys(r, header.pn);
        DecryptInChain(DhRatchetStep(s, header.dh, newDh), header, cipher, ad)
  }

  /** Decryption keeps the mutated state only if the message authenticates. */
  function Decrypt<P>(r: RatchetState, header: Header, cipher: Cipher<P>, ad: Ad, newDh: DhKey): (a: Attempt<P>)
    requires WellFormed(r)
    ensures WellFormed(a.state)
    ensures a.result.Err? ==> a.state == r
  {
    var a := DecryptInner(r, header, cipher, ad, newDh);
    if a.result.Ok? then a else Attempt(r, a.result)
  }

}

/** A transition is staged on a copy of the ratchet and counts only if the state
    it produces can be checkpointed. */
module Staging {
  import opened Prelude
  import opened RatchetFields
  import opened RatchetModel
  import opened SymbolicKeys

  datatype Wire<P> = Wire(header: Header, cipher: Cipher<P>)

  datatype StageError = RatchetRefused(error: RatchetError) | CheckpointRefused(reason: CheckpointError)

  function StageEncrypt<P>(r: RatchetState, plaintext: P, ad: Ad, nonce: nat): Result<Encrypted<P>, StageError> {
    match Encrypt(r, plaintext, ad, nonce)
    case Err(e) => Err(RatchetRefused(e))
    case Ok(e) => if Resumable(e.state) then Ok(e) else Err(CheckpointRefused(Refusal(e.state).value))
  }

  datatype Decrypted<P> = Decrypted(state: RatchetState, plaintext: P)

  function StageDecrypt<P>(r: RatchetState, header: Header, cipher: Cipher<P>, ad: Ad, newDh: DhKey): Result<Decrypted<P>, StageError>
    requires WellFormed(r)
  {
    var a := Decrypt(r, header, cipher, ad, newDh);
    if a.result.Err? then Err(RatchetRefused(a.result.error))
    else if !Resumable(a.state) then Err(CheckpointRefused(Refusal(a.state).value))
    else Ok(Decrypted(a.state, a.result.value))
  }
}

/** The Double Ratchet of `ratchet.rs`, updated in place. */
module Ratchet {
  import opened Prelude
  import opened RatchetFields
  import opened SymbolicKeys
  import opened RatchetModel

  class DoubleRatchet {
    var dhs: DhKey
    var dhr: Option<DhKey>
    var rk: Root
    var cks: Option<Chain>
    var ckr: Option<Chain>
    var ns: U32
    var nr: U32
    var pn: U32
    var skipped: SkippedKeys
    const maxSkipped: nat

    function State(): RatchetState
      reads this
    {
      RatchetFields.State(dhs, dhr, rk, cks, ckr, ns, nr, pn, skipped, maxSkipped)
    }

    ghost predicate Valid()
      reads this
    {
      WellFormed(State())
    }

    constructor InitAlice(seed: Seed, theirInitialDh: DhKey, newDh: DhKey)
      ensures Valid() && State() == RatchetModel.InitAlice(seed, theirInitialDh, newDh)
    {
      var (root, chain) := KdfRk(FromX3dh(seed), DiffieHellman(newDh, theirInitialDh));
      dhs, dhr, rk, cks, ckr := newDh, Some(theirInitialDh), root, Some(chain), None;
      ns, nr, pn, skipped, maxSkipped := 0, 0, 0, [], MAX_SKIPPED_KEYS;
    }

    constructor InitBob(seed: Seed, ourInitialDh: DhKey)
      ensures Valid() && State() == RatchetModel.InitBob(seed, ourInitialDh)
    {
      dhs, dhr, rk, cks, ckr := ourInitialDh, None, FromX3dh(seed), None, None;
      ns, nr, pn, skipped, maxSkipped := 0, 0, 0, [], MAX_SKIPPED_KEYS;
    }

    /** The ratchet a checkpoint describes. */
    constructor FromState(s: RatchetState)
      requires WellFormed(s)
      ensures Valid() && State() == s
    {
      dhs, dhr, rk, cks, ckr := s.dhs, s.dhr, s.rk, s.cks, s.ckr;
      ns, nr, pn, skipped, maxSkipped := s.ns, s.nr, s.pn, s.skipped, s.maxSkipped;
    }

    /** An independent copy, on which a transition is staged. */
    constructor StagedCopy(original: DoubleRatchet)
      requires original.Valid()
      ensures Valid() && State() == original.State()
    {
      dhs, dhr, rk, cks, ckr := original.dhs, original.dhr, original.rk, original.cks, original.ckr;
      ns, nr, pn := original.ns, original.nr, original.pn;
      skipped, maxSkipped := original.skipped, original.maxSkipped;
    }

    method Encrypt<P>(plaintext: P, ad: Ad, nonce: nat) returns (r: Result<(Header, Cipher<P>), RatchetError>)
      requires Valid()
      modifies this
      ensures Valid()
      ensures match RatchetModel.Encrypt(old(State()), plaintext, ad, nonce)
              case Ok(e) => r == Ok((e.header, e.cipher)) && State() == e.state
              case Err(error) => r == Err(error) && State() == old(State())
    {
      if cks.None? {
        return Err(NotInitialized);
      }
      var (newCks, mk) := KdfCk(cks.value);
      cks := Some(newCks);
      var header := Header(dhs, pn, ns);
      ns := Increment32(ns);
      return Ok((header, Sealed(mk, ad, header, nonce, plaintext)));
    }

    /** Every error, at whatever point of the mutation it arises, leaves the
        ratchet exactly as it was. */
    method Decrypt<P>(header: Header, cipher: Cipher<P>, ad: Ad, newDh: DhKey) returns (r: Result<P, RatchetError>)
      requires Valid()
      modifies this
      ensures Valid()
      ensures var a := RatchetModel.Decrypt(old(State()), header, cipher, ad, newDh);
              r == a.result && State() == a.state
      ensures r.Err? ==> State() == old(State())
    {
      var snapshot := State();
      r := DecryptInner(header, cipher, ad, newDh);
      if r.Err? {
        Restore(snapshot);
      }
    }

    method DecryptInner<P>(header: Header, cipher: Cipher<P>, ad: Ad, newDh: DhKey) returns (r: Result<P, RatchetError>)
      requires Valid()
      modifies this
      ensures Valid()
      ensures var a := RatchetModel.DecryptInner(old(State()), header, cipher, ad, newDh);
              r == a.result && State() == a.state
    {
      var found := Find(skipped, header.dh, header.n);
      if found.Some? {
        var mk := skipped[found.value].mk;
        skipped := SwapRemove(skipped, found.value);
        return Open(mk, cipher, ad, header);
      }
      if dhr != Some(header.dh) {
        var ok := SkipMessageKeys(header.pn);
        if !ok {
          return Err(SkipLimit);
        }
        DhRatchetStep(header.dh, newDh);
      }
      var ok := SkipMessageKeys(header.n);
      if !ok {
        return Err(SkipLimit);
      }
      if ckr.None? {
        return Err(NotInitialized);
      }
      var (newCkr, mk) := KdfCk(ckr.value);
      ckr := Some(newCkr);
      nr := Increment32(nr);
      return Open(mk, cipher, ad, header);
    }

    method Restore(snapshot: RatchetState)
      requires WellFormed(snapshot) && snapshot.maxSkipped == maxSkipped
      modifies this
      ensures Valid() && State() == snapshot
    {
      dhs, dhr, rk, cks, ckr := snapshot.dhs, snapshot.dhr, snapshot.rk, snapshot.cks, snapshot.ckr;
      ns, nr, pn, skipped := snapshot.ns, snapshot.nr, snapshot.pn, snapshot.skipped;
    }

    method SkipMessageKeys(until: U32) returns (ok: bool)
      requires Valid()
      modifies this
      ensures Valid()
      ensures ok == WithinSkipLimit(old(nr), until)
      ensures State() == if ok then RatchetModel.SkipMessageKeys(old(State()), until) else old(State())
    {
      var limit := if nr + MAX_SKIP > U32_MAX then U32_MAX else nr + MAX_SKIP;
      if limit < until {
        return false;
      }
      if ckr.Some? {
        while nr < until
          invariant ckr.Some? && dhr.Some?
          invariant SkipLoop(State(), until) == SkipLoop(old(State()), until)
          decreases until - nr
        {
          var (newCkr, mk) := KdfCk(ckr.value);
          ckr := Some(newCkr);
          skipped := Insert(skipped, Skipped(dhr.value, nr, mk));
          nr := nr + 1;
        }
        TrimSkipped();
      }
      return true;
    }

    method DhRatchetStep(newDhr: DhKey, newDh: DhKey)
      modifies this
      ensures Valid() && State() == RatchetModel.DhRatchetStep(old(State()), newDhr, newDh)
    {
      pn, ns, nr, dhr := ns, 0, 0, Some(newDhr);
      var (rk1, newCkr) := KdfRk(rk, DiffieHellman(dhs, newDhr));
      rk, ckr := rk1, Some(newCkr);
      dhs := newDh;
      var (rk2, newCks) := KdfRk(rk, DiffieHellman(dhs, newDhr));
      rk, cks := rk2, Some(newCks);
    }

    method TrimSkipped()
      modifies this`skipped
      ensures skipped == Trim(old(skipped), maxSkipped)
    {
      while |skipped| > maxSkipped
        invariant Trim(skipped, maxSkipped) == Trim(old(skipped), maxSkipped)
      {
        skipped := skipped[1..];
      }
    }
  }
}

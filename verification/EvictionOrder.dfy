/** Which skipped keys eviction drops, over every run of a ratchet: the oldest
    first, exactly as long as each key used stood last or last but one. */
module EvictionOrder {
  import opened Prelude
  import opened RatchetFields
  import opened SymbolicKeys
  import opened RatchetModel
  import opened RatchetSafety

  /** One key is used, later keys are inserted, `k` keys are evicted. They are the
      `k` that stood first in the order before the use, the used one aside,
      exactly if they stood before it or it stood last or last but one. */
  lemma FrontAfterUse<T>(s: seq<T>, i: nat, news: seq<T>, k: nat)
    requires i < |s| && k < |s| + |news|
    requires forall a, b :: 0 <= a < b < |s| ==> s[a] != s[b]
    ensures (SwapRemove(s, i) + news)[..k] == (s[..i] + s[i + 1..] + news)[..k] <==> k <= i || i + 2 >= |s|
  {
    var (swapped, shifted) := (SwapRemove(s, i), s[..i] + s[i + 1..]);
    if i + 2 >= |s| {
      assert swapped == shifted;
    } else if k <= i {
      assert (swapped + news)[..k] == s[..k] == (shifted + news)[..k];
    } else {
      assert (swapped + news)[..k][i] == s[|s| - 1] && (shifted + news)[..k][i] == s[i + 1];
    }
  }

  // ── Insertion numbers ─────────────────────────────────────────────────────

  /** `of[i]` numbers the insertion of the key now in place `i`; a key inserted
      again while it is held keeps its place and its number. */
  datatype Ages = Ages(of: seq<nat>, next: nat)

  datatype Aged = Aged(r: RatchetState, ages: Ages)

  ghost predicate Numbered(a: Ages, keys: nat) {
    && |a.of| == keys
    && (forall i :: 0 <= i < |a.of| ==> a.of[i] < a.next)
    && (forall i, j :: 0 <= i < j < |a.of| ==> a.of[i] != a.of[j])
  }

  ghost predicate Stamped(a: Aged) {
    Structural(a.r) && Numbered(a.ages, |a.r.skipped|)
  }

  /** The map holds its keys in the order they were inserted in. */
  ghost predicate Ordered(a: Ages) {
    forall i, j :: 0 <= i < j < |a.of| ==> a.of[i] < a.of[j]
  }

  /** Every key dropped, one after the other, is the oldest of those left. */
  ghost predicate OldestFirst(a: Ages, max: nat) {
    forall i, j :: 0 <= i < j < |a.of| && i + max < |a.of| ==> a.of[i] < a.of[j]
  }

  function Inserted(a: Ages): Ages {
    Ages(a.of + [a.next], a.next + 1)
  }

  function Trimmed(a: Ages, max: nat): Ages {
    a.(of := Trim(a.of, max))
  }

  /** The numbers after the loop that skips ahead, before anything is evicted. */
  function LoopAges(r: RatchetState, until: U32, a: Ages): Ages
    requires r.ckr.Some? && r.dhr.Some?
    decreases until - r.nr
  {
    if r.nr < until then
      LoopAges(SkipOne(r), until, if HoldsKey(r.skipped, r.dhr.value, r.nr) then a else Inserted(a))
    else a
  }

  function SkipAges(r: RatchetState, until: U32, a: Ages): Ages
    requires WellFormed(r)
  {
    if r.ckr.None? then a else Trimmed(LoopAges(r, until, a), r.maxSkipped)
  }

  ghost predicate SkipEvictsOldest(r: RatchetState, until: U32, a: Ages)
    requires WellFormed(r)
  {
    r.ckr.Some? ==> OldestFirst(LoopAges(r, until, a), r.maxSkipped)
  }

  predicate Succeeds<P>(r: RatchetState, op: Operation<P>)
    requires WellFormed(r)
  {
    op.DecryptOp? && Decrypt(r, op.header, op.cipher, op.adr, op.newDh).result.Ok?
  }

  function AgesAfter<P>(a: Aged, op: Operation<P>): Ages
    requires WellFormed(a.r) && |a.ages.of| == |a.r.skipped|
  {
    if !Succeeds(a.r, op) then a.ages
    else
      match Find(a.r.skipped, op.header.dh, op.header.n)
      case Some(i) => a.ages.(of := SwapRemove(a.ages.of, i))
      case None =>
        if a.r.dhr == Some(op.header.dh) then SkipAges(a.r, op.header.n, a.ages)
        else SkipAges(Turned(a.r, op), op.header.n, SkipAges(a.r, op.header.pn, a.ages))
  }

  /** The state after the DH step of a message under a new ratchet key. */
  function Turned<P>(r: RatchetState, op: Operation<P>): (t: RatchetState)
    requires WellFormed(r) && op.DecryptOp?
    ensures WellFormed(t)
  {
    DhRatchetStep(SkipMessageKeys(r, op.header.pn), op.header.dh, op.newDh)
  }

  /** Whatever the operation evicts, it evicts oldest first. */
  ghost predicate EvictsOldest<P>(a: Aged, op: Operation<P>)
    requires Stamped(a)
  {
    Succeeds(a.r, op) && Find(a.r.skipped, op.header.dh, op.header.n).None? ==>
      if a.r.dhr == Some(op.header.dh) then SkipEvictsOldest(a.r, op.header.n, a.ages)
      else && SkipEvictsOldest(a.r, op.header.pn, a.ages)
           && SkipEvictsOldest(Turned(a.r, op), op.header.n, SkipAges(a.r, op.header.pn, a.ages))
  }

  /** If the operation uses a held key, then the last one or the last but one. */
  predicate UsesNearEnd<P>(a: Aged, op: Operation<P>)
    requires WellFormed(a.r)
  {
    Succeeds(a.r, op) ==>
      match Find(a.r.skipped, op.header.dh, op.header.n)
      case Some(i) => i + 2 >= |a.r.skipped|
      case None => true
  }

  // ── Skipping keeps the order ──────────────────────────────────────────────

  lemma {:induction false} LoopNumbers(r: RatchetState, until: U32, a: Ages)
    requires r.ckr.Some? && r.dhr.Some? && Numbered(a, |r.skipped|)
    ensures Numbered(LoopAges(r, until, a), |SkipLoop(r, until).skipped|)
    ensures Ordered(a) ==> Ordered(LoopAges(r, until, a))
    decreases until - r.nr
  {
    if r.nr < until {
      LoopNumbers(SkipOne(r), until, if HoldsKey(r.skipped, r.dhr.value, r.nr) then a else Inserted(a));
    }
  }

  lemma SkipNumbers(r: RatchetState, until: U32, a: Ages)
    requires WellFormed(r) && Numbered(a, |r.skipped|)
    ensures Numbered(SkipAges(r, until, a), |SkipMessageKeys(r, until).skipped|)
    ensures Ordered(a) ==> Ordered(SkipAges(r, until, a)) && SkipEvictsOldest(r, until, a)
  {
    if r.ckr.Some? {
      LoopNumbers(r, until, a);
    }
  }

  lemma SwapNumbers(a: Ages, i: nat)
    requires Numbered(a, |a.of|) && i < |a.of|
    ensures Numbered(a.(of := SwapRemove(a.of, i)), |a.of| - 1)
    ensures Ordered(a) ==> (Ordered(a.(of := SwapRemove(a.of, i))) <==> i + 2 >= |a.of|)
  {
    var t := SwapRemove(a.of, i);
    if i + 2 < |a.of| {
      assert t[i] == a.of[|a.of| - 1] && t[i + 1] == a.of[i + 1];
    }
  }

  /** Each operation keeps the numbers; it evicts oldest first while the order
      stands, and it leaves it standing exactly if it uses a key near the end. */
  lemma StepNumbers<P>(a: Aged, op: Operation<P>)
    requires Stamped(a)
    ensures Stamped(Aged(Perform(a.r, op), AgesAfter(a, op)))
    ensures Ordered(a.ages) ==> EvictsOldest(a, op) && (Ordered(AgesAfter(a, op)) <==> UsesNearEnd(a, op))
  {
    PerformKeepsStructure(a.r, op);
    if Succeeds(a.r, op) {
      match Find(a.r.skipped, op.header.dh, op.header.n)
      case Some(i) =>
        SwapNumbers(a.ages, i);
      case None =>
        if a.r.dhr == Some(op.header.dh) {
          SkipNumbers(a.r, op.header.n, a.ages);
        } else {
          SkipNumbers(a.r, op.header.pn, a.ages);
          SkipNumbers(Turned(a.r, op), op.header.n, SkipAges(a.r, op.header.pn, a.ages));
        }
    }
  }

  // ── Runs ──────────────────────────────────────────────────────────────────

  function Step<P>(a: Aged, op: Operation<P>): (b: Aged)
    requires Stamped(a)
    ensures Stamped(b)
  {
    StepNumbers(a, op);
    Aged(Perform(a.r, op), AgesAfter(a, op))
  }

  function After<P>(a: Aged, ops: seq<Operation<P>>): (b: Aged)
    requires Stamped(a)
    ensures Stamped(b)
    decreases |ops|
  {
    if ops == [] then a else After(Step(a, ops[0]), ops[1..])
  }

  ghost predicate AlwaysEvictsOldest<P>(a: Aged, ops: seq<Operation<P>>)
    requires Stamped(a)
    decreases |ops|
  {
    ops != [] ==> EvictsOldest(a, ops[0]) && AlwaysEvictsOldest(Step(a, ops[0]), ops[1..])
  }

  predicate AlwaysNearEnd<P>(a: Aged, ops: seq<Operation<P>>)
    requires Stamped(a)
    decreases |ops|
  {
    ops != [] ==> UsesNearEnd(a, ops[0]) && AlwaysNearEnd(Step(a, ops[0]), ops[1..])
  }

  /** However the run goes on, as long as it uses held keys near the end only,
      eviction is of the oldest first. */
  ghost predicate Fifo<P(!new)>(a: Aged)
    requires Stamped(a)
  {
    forall more: seq<Operation<P>> :: AlwaysNearEnd(a, more) ==> AlwaysEvictsOldest(a, more)
  }

  lemma {:induction false} OrderEvictsOldest<P>(a: Aged, ops: seq<Operation<P>>)
    requires Stamped(a) && Ordered(a.ages) && AlwaysNearEnd(a, ops)
    ensures AlwaysEvictsOldest(a, ops)
    decreases |ops|
  {
    hide Ordered, Stamped, EvictsOldest, UsesNearEnd;
    if ops != [] {
      StepNumbers(a, ops[0]);
      OrderEvictsOldest(Step(a, ops[0]), ops[1..]);
    }
  }

  // ── Out of order, a newer key goes first ──────────────────────────────────

  function Above(s: SkippedKeys): (dh: DhKey)
    ensures forall i :: 0 <= i < |s| ==> s[i].dh < dh
  {
    if s == [] then 0
    else
      var rest := Above(s[..|s| - 1]);
      assert forall i :: 0 <= i < |s| - 1 ==> s[..|s| - 1][i] == s[i];
      if rest > s[|s| - 1].dh then rest else s[|s| - 1].dh + 1
  }

  /** The peer's second message under a ratchet key not seen before, the first
      still on its way. */
  function SecondMessage<P>(r: RatchetState, text: P): Operation<P>
    requires WellFormed(r)
  {
    var current := if r.dhr.Some? then r.dhr.value else 0;
    var header := Header(Above(r.skipped) + current + 1, r.nr, 1);
    var first := DhRatchetStep(r, header.dh, 0).ckr.value;
    DecryptOp(header, Sealed(MessageKey(NextChain(first)), Ad(0, 0), header, 0, text), Ad(0, 0), 0)
  }

  /** It inserts one key. */
  lemma SecondMessageInserts<P>(a: Aged, text: P)
    requires Stamped(a) && a.r.ckr.Some?
    ensures var op := SecondMessage(a.r, text);
            && UsesNearEnd(a, op) && Step(a, op).ages == Trimmed(Inserted(a.ages), MAX_SKIPPED_KEYS)
            && Step(a, op).r.ckr.Some?
            && (EvictsOldest(a, op) ==> OldestFirst(Inserted(a.ages), MAX_SKIPPED_KEYS))
  {
    var op := SecondMessage(a.r, text);
    var (dh, t) := (op.header.dh, Turned(a.r, op));
    assert SkipMessageKeys(a.r, a.r.nr) == a.r && SkipAges(a.r, a.r.nr, a.ages) == a.ages;
    assert SkipLoop(t, 1) == SkipOne(t);
    assert LoopAges(t, 1, a.ages) == Inserted(a.ages);
    assert Succeeds(a.r, op);
  }

  lemma StampedHasChain(a: Aged)
    requires Stamped(a) && a.ages.of != []
    ensures a.r.ckr.Some?
  {
  }

  lemma {:induction false} NewerGoesFirst<P>(a: Aged, p: nat, q: nat, text: P) returns (ops: seq<Operation<P>>)
    requires Stamped(a) && p < q < |a.ages.of| && a.ages.of[p] > a.ages.of[q]
    ensures AlwaysNearEnd(a, ops) && !AlwaysEvictsOldest(a, ops)
    decreases MAX_SKIPPED_KEYS - |a.r.skipped| + p
  {
    hide UsesNearEnd, EvictsOldest, SecondMessage, Step, Perform, AgesAfter;
    var op := SecondMessage(a.r, text);
    StampedHasChain(a);
    SecondMessageInserts(a, text);
    var b := Step(a, op);
    var full := |a.ages.of| == MAX_SKIPPED_KEYS;
    if full && p == 0 {
      assert Inserted(a.ages).of[0] > Inserted(a.ages).of[q];
      ops := [op];
    } else {
      var rest := NewerGoesFirst(b, if full then p - 1 else p, if full then q - 1 else q, text);
      ops := [op] + rest;
      assert ops[1..] == rest;
    }
  }

  /** A ratchet evicts oldest first from here on exactly if its map is in the order
      of insertion. */
  lemma FifoExactly<P(!new)>(a: Aged, text: P)
    requires Stamped(a)
    ensures Fifo<P>(a) <==> Ordered(a.ages)
  {
    if Ordered(a.ages) {
      forall more: seq<Operation<P>> | AlwaysNearEnd(a, more)
        ensures AlwaysEvictsOldest(a, more)
      {
        OrderEvictsOldest(a, more);
      }
    } else {
      var p, q :| 0 <= p < q < |a.ages.of| && a.ages.of[p] >= a.ages.of[q];
      var more := NewerGoesFirst(a, p, q, text);
    }
  }

  // ── From the constructors on ──────────────────────────────────────────────

  ghost predicate Initial(a: Aged) {
    && a.ages == Ages([], 0)
    && ((exists seed, dh, newDh :: a.r == InitAlice(seed, dh, newDh)) || (exists seed, dh :: a.r == InitBob(seed, dh)))
  }

  lemma {:induction false} FifoAlongExactly<P(!new)>(a: Aged, ops: seq<Operation<P>>, text: P)
    requires Stamped(a) && Ordered(a.ages)
    ensures AlwaysNearEnd(a, ops) <==> forall k :: 0 <= k <= |ops| ==> Fifo<P>(After(a, ops[..k]))
    decreases |ops|
  {
    hide Stamped, Ordered, UsesNearEnd, EvictsOldest, Fifo;
    FifoExactly<P>(a, text);
    if ops == [] {
      assert ops[..0] == [];
    } else {
      var b := Step(a, ops[0]);
      StepNumbers(a, ops[0]);
      FifoExactly<P>(b, text);
      forall k | 1 <= k <= |ops|
        ensures After(a, ops[..k]) == After(b, ops[1..][..k - 1])
      {
        assert ops[..k][0] == ops[0] && ops[..k][1..] == ops[1..][..k - 1];
      }
      assert ops[..0] == [] && ops[1..][..0] == [];
      if Ordered(b.ages) {
        FifoAlongExactly<P>(b, ops[1..], text);
        assert forall k :: 0 <= k <= |ops[1..]| ==> After(b, ops[1..][..k]) == After(a, ops[..k + 1]);
      } else {
        assert After(a, ops[..1]) == b;
      }
    }
  }

  /** In every run from a constructor eviction is, and can be relied on to stay, of
      the oldest key first exactly if every held key used so far stood last or
      last but one. The first use elsewhere has a continuation, with no further such
      use, that evicts a newer key before an older one. */
  lemma OldestFirstExactly<P(!new)>(a: Aged, ops: seq<Operation<P>>, text: P)
    requires Initial(a)
    ensures Stamped(a)
    ensures AlwaysNearEnd(a, ops) <==> forall k :: 0 <= k <= |ops| ==> Fifo<P>(After(a, ops[..k]))
    ensures AlwaysNearEnd(a, ops) ==> AlwaysEvictsOldest(a, ops)
  {
    FifoAlongExactly(a, ops, text);
    if AlwaysNearEnd(a, ops) {
      OrderEvictsOldest(a, ops);
    }
  }

  // ── A run in which the newest key goes first ──────────────────────────────

  /** The initiator's ratchet when `n` messages were encrypted. */
  function Sender<P>(seed: Seed, theirs: DhKey, ours: DhKey, text: P, ad: Ad, n: nat): (r: RatchetState)
    ensures WellFormed(r)
  {
    if n == 0 then InitAlice(seed, theirs, ours)
    else
      var prev := Sender(seed, theirs, ours, text, ad, n - 1);
      Perform(prev, EncryptOp(text, ad, n))
  }

  /** Message `n`, as it encrypts it, arriving. */
  function Arrival<P>(seed: Seed, theirs: DhKey, ours: DhKey, text: P, ad: Ad, n: nat): Operation<P>
  {
    match Encrypt(Sender(seed, theirs, ours, text, ad, n), text, ad, n)
    case Ok(e) => DecryptOp(e.header, e.cipher, ad, 0)
    case Err(_) => EncryptOp(text, ad, n)
  }

  function SendingChain(seed: Seed, theirs: DhKey, ours: DhKey): Chain {
    FirstChain(FromX3dh(seed), DiffieHellman(ours, theirs))
  }

  lemma {:induction false} SenderIs<P>(seed: Seed, theirs: DhKey, ours: DhKey, text: P, ad: Ad, n: U32)
    ensures var ck := SendingChain(seed, theirs, ours);
            Sender(seed, theirs, ours, text, ad, n)
            == InitAlice(seed, theirs, ours).(cks := Some(Advance(ck, n)), ns := n)
  {
    if n > 0 {
      SenderIs(seed, theirs, ours, text, ad, n - 1);
    }
  }

  lemma ArrivalIs<P>(seed: Seed, theirs: DhKey, ours: DhKey, text: P, ad: Ad, n: U32)
    ensures var header := Header(ours, 0, n);
            Arrival(seed, theirs, ours, text, ad, n)
            == DecryptOp(header, Sealed(MessageKey(Advance(SendingChain(seed, theirs, ours), n)), ad, header, n, text), ad, 0)
  {
    SenderIs(seed, theirs, ours, text, ad, n);
  }

  /** The keys of positions `from` to `to` of a chain. */
  function Keys(dh: DhKey, ck: Chain, from: U32, to: U32): (s: SkippedKeys)
    requires from <= to
    ensures |s| == to - from
    ensures (forall i :: 0 <= i < |s| ==> s[i] == Skipped(dh, from + i, MessageKey(Advance(ck, from + i))))
  {
    seq(to - from, (i: nat) requires i < to - from => Skipped(dh, from + i, MessageKey(Advance(ck, from + i))))
  }

  function Numbers(from: nat, count: nat): (s: seq<nat>)
    ensures |s| == count && forall i :: 0 <= i < count ==> s[i] == from + i
  {
    seq(count, (i: nat) => from + i)
  }

  lemma OneMore(r: RatchetState, ck: Chain, until: U32, a: Ages)
    requires r.dhr.Some? && r.ckr == Some(Advance(ck, r.nr)) && r.nr < until && !HoldsKey(r.skipped, r.dhr.value, r.nr)
    ensures SkipOne(r).skipped + Keys(r.dhr.value, ck, r.nr + 1, until) == r.skipped + Keys(r.dhr.value, ck, r.nr, until)
    ensures Inserted(a).of + Numbers(a.next + 1, until - r.nr - 1) == a.of + Numbers(a.next, until - r.nr)
  {
  }

  /** Skipping ahead over keys that are not held appends them. */
  lemma {:induction false} LoopAppends(r: RatchetState, ck: Chain, until: U32, a: Ages)
    requires r.dhr.Some? && r.ckr == Some(Advance(ck, r.nr)) && r.nr <= until && |a.of| == |r.skipped|
    requires forall i :: 0 <= i < |r.skipped| ==> r.skipped[i].dh != r.dhr.value || r.skipped[i].n < r.nr
    ensures SkipLoop(r, until)
            == r.(ckr := Some(Advance(ck, until)), nr := until, skipped := r.skipped + Keys(r.dhr.value, ck, r.nr, until))
    ensures LoopAges(r, until, a) == Ages(a.of + Numbers(a.next, until - r.nr), a.next + (until - r.nr))
    decreases until - r.nr
  {
    if r.nr < until {
      LoopAppends(SkipOne(r), ck, until, Inserted(a));
      OneMore(r, ck, until, a);
    }
  }

  /** The ratchet has received on chain `ck` of `dh` up to `r.nr`. */
  ghost predicate On(r: RatchetState, dh: DhKey, ck: Chain) {
    && r.dhr == Some(dh) && r.ckr == Some(Advance(ck, r.nr))
    && forall i :: 0 <= i < |r.skipped| ==> r.skipped[i].dh == dh && r.skipped[i].n < r.nr
  }

  function Received(a: Aged, dh: DhKey, ck: Chain, n: U32): Aged
    requires a.r.nr <= n < U32_MAX
  {
    Aged(a.r.(ckr := Some(Advance(ck, n + 1)), nr := n + 1,
              skipped := Trim(a.r.skipped + Keys(dh, ck, a.r.nr, n), MAX_SKIPPED_KEYS)),
         Trimmed(AgesReceived(a, n), MAX_SKIPPED_KEYS))
  }

  function AgesReceived(a: Aged, n: U32): Ages
    requires a.r.nr <= n
  {
    Ages(a.ages.of + Numbers(a.ages.next, n - a.r.nr), a.ages.next + (n - a.r.nr))
  }

  /** A message of that chain arrives, not before those already received. */
  lemma Arrives<P>(a: Aged, seed: Seed, bob: DhKey, alice: DhKey, text: P, ad: Ad, n: U32)
    requires Stamped(a) && On(a.r, alice, SendingChain(seed, bob, alice))
    requires a.r.nr <= n <= a.r.nr + MAX_SKIP && n < U32_MAX
    ensures var op := Arrival(seed, bob, alice, text, ad, n);
            && Succeeds(a.r, op) && Step(a, op) == Received(a, alice, SendingChain(seed, bob, alice), n)
            && (EvictsOldest(a, op) <==> OldestFirst(AgesReceived(a, n), MAX_SKIPPED_KEYS))
  {
    ArrivalIs(seed, bob, alice, text, ad, n);
    LoopAppends(a.r, SendingChain(seed, bob, alice), n, a.ages);
  }

  lemma FirstArrives<P>(seed: Seed, bob: DhKey, alice: DhKey, text: P, ad: Ad, n: U32)
    requires n <= MAX_SKIP
    ensures var (a, op) := (Aged(InitBob(seed, bob), Ages([], 0)), Arrival(seed, bob, alice, text, ad, n));
            && Stamped(a) && Succeeds(a.r, op) && EvictsOldest(a, op)
            && var b := Step(a, op);
            && On(b.r, alice, SendingChain(seed, bob, alice)) && b.r.nr == n + 1
            && b.r.skipped == Keys(alice, SendingChain(seed, bob, alice), 0, n) && b.ages == Ages(Numbers(0, n), n)
  {
    var (a, op) := (Aged(InitBob(seed, bob), Ages([], 0)), Arrival(seed, bob, alice, text, ad, n));
    ArrivalIs(seed, bob, alice, text, ad, n);
    LoopAppends(Turned(a.r, op), SendingChain(seed, bob, alice), n, a.ages);
  }

  /** The keys of positions 0 to 1999, 1000 aside, skipped by messages 1000 and 2001. */
  function Full(dh: DhKey, ck: Chain): (s: SkippedKeys)
    ensures |s| == MAX_SKIPPED_KEYS
    ensures forall i :: 0 <= i < |s| ==> s[i].dh == dh && s[i].n == if i < 1000 then i else i + 1
    ensures forall i :: 0 <= i < |s| ==> s[i].mk == MessageKey(Advance(ck, s[i].n))
  {
    Keys(dh, ck, 0, 1000) + Keys(dh, ck, 1001, 2001)
  }

  lemma FillsUp<P>(seed: Seed, bob: DhKey, alice: DhKey, text: P, ad: Ad)
    ensures var ck := SendingChain(seed, bob, alice);
            var a := Aged(InitBob(seed, bob), Ages([], 0));
            var (first, second) := (Arrival(seed, bob, alice, text, ad, 1000), Arrival(seed, bob, alice, text, ad, 2001));
            && Stamped(a) && EvictsOldest(a, first) && EvictsOldest(Step(a, first), second)
            && var c := Step(Step(a, first), second);
            && On(c.r, alice, ck) && c.r.nr == 2002 && c.r.skipped == Full(alice, ck) && c.ages == Ages(Numbers(0, 2000), 2000)
  {
    hide Arrival, Advance, Keys, Step, EvictsOldest, SendingChain;
    var ck := SendingChain(seed, bob, alice);
    var a := Aged(InitBob(seed, bob), Ages([], 0));
    FirstArrives(seed, bob, alice, text, ad, 1000);
    var b := Step(a, Arrival(seed, bob, alice, text, ad, 1000));
    Arrives(b, seed, bob, alice, text, ad, 2001);
    var c := Step(b, Arrival(seed, bob, alice, text, ad, 2001));
    assert c.ages.of == Numbers(0, 2000);
  }

  /** A held message arrives: its key is used. */
  lemma HeldArrives<P>(a: Aged, seed: Seed, bob: DhKey, alice: DhKey, text: P, ad: Ad, n: U32, i: nat)
    requires Stamped(a) && i < |a.r.skipped|
    requires a.r.skipped[i] == Skipped(alice, n, MessageKey(Advance(SendingChain(seed, bob, alice), n)))
    ensures var op := Arrival(seed, bob, alice, text, ad, n);
            && Succeeds(a.r, op) && EvictsOldest(a, op)
            && Step(a, op) == Aged(a.r.(skipped := SwapRemove(a.r.skipped, i)), a.ages.(of := SwapRemove(a.ages.of, i)))
  {
    ArrivalIs(seed, bob, alice, text, ad, n);
    assert Find(a.r.skipped, alice, n) == Some(i);
  }

  /** A message whose key is neither held nor ahead is refused. */
  lemma LostArrives<P>(a: Aged, seed: Seed, bob: DhKey, alice: DhKey, text: P, ad: Ad, n: U32)
    requires Stamped(a) && On(a.r, alice, SendingChain(seed, bob, alice)) && n < a.r.nr && !HoldsKey(a.r.skipped, alice, n)
    ensures !Succeeds(a.r, Arrival(seed, bob, alice, text, ad, n))
  {
    ArrivalIs(seed, bob, alice, text, ad, n);
    var ck := SendingChain(seed, bob, alice);
    if Advance(ck, a.r.nr) == Advance(ck, n) {
      AdvanceInjective(ck, ck, a.r.nr, n);
    }
  }

  /** Bob gets Alice's messages 1000, 2001, 0 and 2004: the third uses the oldest of
      2000 held keys, and the fourth evicts the newest of the others. Message 2000
      can then not be decrypted any more, message 1 still can. */
  lemma NewestEvicted<P>(seed: Seed, bob: DhKey, alice: DhKey, text: P, ad: Ad) returns (a: Aged, ops: seq<Operation<P>>)
    ensures a.r == InitBob(seed, bob) && Initial(a) && Stamped(a)
    ensures var got := (n: nat) => Arrival(seed, bob, alice, text, ad, n);
            && ops == [got(1000), got(2001), got(0), got(2004)]
            && Succeeds(After(a, ops).r, got(1)) && !Succeeds(After(a, ops).r, got(2000))
            && Succeeds(After(a, ops[..3]).r, got(1)) && Succeeds(After(a, ops[..3]).r, got(2000))
    ensures AlwaysEvictsOldest(a, ops[..3]) && !EvictsOldest(After(a, ops[..3]), ops[3])
  {
    hide Arrival, Advance, Keys, Step, EvictsOldest, SendingChain, Succeeds, Structural, Full;
    var ck := SendingChain(seed, bob, alice);
    a := Aged(InitBob(seed, bob), Ages([], 0));
    var (first, second, third, fourth) := (Arrival(seed, bob, alice, text, ad, 1000), Arrival(seed, bob, alice, text, ad, 2001),
                                           Arrival(seed, bob, alice, text, ad, 0), Arrival(seed, bob, alice, text, ad, 2004));
    ops := [first, second, third, fourth];
    FillsUp(seed, bob, alice, text, ad);
    var c := Step(Step(a, first), second);
    HeldArrives(c, seed, bob, alice, text, ad, 0, 0);
    var d := Step(c, third);
    assert d.r.skipped[0] == Full(alice, ck)[1999] && d.r.skipped[1] == Full(alice, ck)[1];
    HeldArrives(d, seed, bob, alice, text, ad, 2000, 0);
    HeldArrives(d, seed, bob, alice, text, ad, 1, 1);
    Arrives(d, seed, bob, alice, text, ad, 2004);
    var e := Step(d, fourth);
    assert e.r.skipped[0] == d.r.skipped[1];
    HeldArrives(e, seed, bob, alice, text, ad, 1, 0);
    LostArrives(e, seed, bob, alice, text, ad, 2000);
    assert AgesReceived(d, 2004).of[0] == 1999 && AgesReceived(d, 2004).of[1] == 1;
    InOrder(a, first, second, third, fourth);
  }

  lemma InOrder<P>(a: Aged, o: Operation<P>, p: Operation<P>, q: Operation<P>, r: Operation<P>)
    requires Stamped(a)
    ensures var ops := [o, p, q, r];
            && After(a, ops[..3]) == Step(Step(Step(a, o), p), q) && After(a, ops) == Step(After(a, ops[..3]), r)
            && (AlwaysEvictsOldest(a, ops[..3]) <==>
                  EvictsOldest(a, o) && EvictsOldest(Step(a, o), p) && EvictsOldest(Step(Step(a, o), p), q))
  {
    hide Stamped, EvictsOldest, Step;
    assert [o, p, q, r][..3] == [o, p, q] && [o, p, q][1..] == [p, q] && [p, q][1..] == [q] && [q][1..] == [];
    assert [o, p, q, r][1..] == [p, q, r] && [p, q, r][1..] == [q, r] && [q, r][1..] == [r] && [r][1..] == [];
    var (b, c) := (Step(a, o), Step(Step(a, o), p));
    assert After(b, [p, q]) == After(c, [q]) == After<P>(Step(c, q), []);
    assert After(b, [p, q, r]) == After(c, [q, r]) == After(Step(c, q), [r]) == After<P>(Step(Step(c, q), r), []);
    assert AlwaysEvictsOldest(b, [p, q]) <==> EvictsOldest(b, p) && AlwaysEvictsOldest(c, [q]);
  }
}

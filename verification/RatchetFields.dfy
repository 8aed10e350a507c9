/** The fields of a Double Ratchet, its bounded store of skipped message keys,
    and the structural rules a stored state must satisfy. The types of key
    material are parameters: the protocol proofs use symbolic terms, the
    checkpoint codec uses 32-byte strings. */
module RatchetFields {
  import opened Prelude

  const MAX_SKIP: U32 := 1000
  const MAX_SKIPPED_KEYS: nat := 2000
  const MAX_RESUMABLE_NR: U32 := U32_MAX - MAX_SKIP - 1

  /** One entry of the skipped-key map: the message key of `(dh, n)`. */
  datatype Skipped<+D, +M> = Skipped(dh: D, n: U32, mk: M)

  datatype State<+D, +R, +C, +M> = State(
    dhs: D,
    dhr: Option<D>,
    rk: R,
    cks: Option<C>,
    ckr: Option<C>,
    ns: U32,
    nr: U32,
    pn: U32,
    skipped: seq<Skipped<D, M>>,
    maxSkipped: nat)

  // ── The skipped-key map: insertion-ordered, with `swap_remove` ────────────

  predicate HoldsKey<D(==), M>(s: seq<Skipped<D, M>>, dh: D, n: U32) {
    exists i :: 0 <= i < |s| && s[i].dh == dh && s[i].n == n
  }

  /** The index of `(dh, n)`, if it is held. */
  function Find<D(==), M>(s: seq<Skipped<D, M>>, dh: D, n: U32): (r: Option<nat>)
    ensures r.Some? ==> r.value < |s| && s[r.value].dh == dh && s[r.value].n == n
    ensures r.Some? <==> HoldsKey(s, dh, n)
  {
    if s == [] then None
    else if s[|s| - 1].dh == dh && s[|s| - 1].n == n then Some(|s| - 1)
    else
      var r := Find(s[..|s| - 1], dh, n);
      assert r.None? ==> forall i :: 0 <= i < |s| - 1 ==> s[..|s| - 1][i] == s[i];
      r
  }

  /** Inserting an absent key appends it; inserting a held key replaces its
      value in place. */
  function Insert<D(==), M>(s: seq<Skipped<D, M>>, e: Skipped<D, M>): seq<Skipped<D, M>> {
    match Find(s, e.dh, e.n)
    case Some(i) => s[i := e]
    case None => s + [e]
  }

  /** Removes entry `i` by moving the last entry into its place. */
  function SwapRemove<T>(s: seq<T>, i: nat): seq<T>
    requires i < |s|
  {
    s[i := s[|s| - 1]][..|s| - 1]
  }

  /** The entries eviction drops: the front of the current order. */
  function Evicted<T>(s: seq<T>, max: nat): seq<T> {
    if |s| > max then s[..|s| - max] else []
  }

  /** The entries eviction keeps. */
  function Trim<T>(s: seq<T>, max: nat): seq<T> {
    if |s| > max then s[|s| - max..] else s
  }

  predicate DistinctKeys<D(==), M>(s: seq<Skipped<D, M>>) {
    forall i, j :: 0 <= i < j < |s| ==> s[i].dh != s[j].dh || s[i].n != s[j].n
  }

  lemma InsertKeepsDistinct<D, M>(s: seq<Skipped<D, M>>, e: Skipped<D, M>)
    requires DistinctKeys(s)
    ensures DistinctKeys(Insert(s, e))
    ensures |Insert(s, e)| <= |s| + 1
  {
  }

  lemma SwapRemoveKeepsDistinct<D, M>(s: seq<Skipped<D, M>>, i: nat)
    requires DistinctKeys(s) && i < |s|
    ensures DistinctKeys(SwapRemove(s, i))
    ensures |SwapRemove(s, i)| == |s| - 1
  {
  }

  // ── What a checkpointed state must satisfy ────────────────────────────────

  datatype CheckpointError =
    | Truncated(actual: nat)
    | Oversized(actual: nat)
    | UnsupportedVersion(version: int)
    | LengthMismatch(expected: nat, actual: nat)
    | UnknownFlags(flags: int)
    | UnexpectedCapacity(capacity: int)
    | TooManySkippedKeys(count: nat)
    | DuplicateSkippedKey
    | AbsentFieldNotZero(field: Field)
    | InconsistentState(rule: Rule)
    | CounterExhausted(counter: Counter)

  datatype Field = FieldDhr | FieldCks | FieldCkr
  datatype Rule = SentBeforeChain | ImpossibleKeys | ReceiveStateWithoutChain
  datatype Counter = CounterNs | CounterNr

  /** The cross-field rules shared by encoding and decoding; `None` accepts. */
  function CheckState(hasDhr: bool, hasCks: bool, hasCkr: bool,
                      ns: U32, nr: U32, pn: U32, skipped: nat): Option<CheckpointError>
  {
    if !hasDhr && !hasCks && !hasCkr && ns != 0 then
      Some(InconsistentState(SentBeforeChain))
    else if !(!hasDhr && !hasCks && !hasCkr) && !(hasDhr && hasCks) then
      Some(InconsistentState(ImpossibleKeys))
    else if !hasCkr && (nr != 0 || pn != 0 || skipped != 0) then
      Some(InconsistentState(ReceiveStateWithoutChain))
    else if skipped > MAX_SKIPPED_KEYS then
      Some(TooManySkippedKeys(skipped))
    else if ns == U32_MAX then
      Some(CounterExhausted(CounterNs))
    else if nr > MAX_RESUMABLE_NR then
      Some(CounterExhausted(CounterNr))
    else
      None
  }

  /** Why `s` cannot be checkpointed, if it cannot. */
  function Refusal<D, R, C, M>(s: State<D, R, C, M>): Option<CheckpointError> {
    if s.maxSkipped != MAX_SKIPPED_KEYS then
      Some(UnexpectedCapacity(if s.maxSkipped <= U32_MAX then s.maxSkipped else U32_MAX))
    else
      CheckState(s.dhr.Some?, s.cks.Some?, s.ckr.Some?, s.ns, s.nr, s.pn, |s.skipped|)
  }

  /** The state can be stored and read back. */
  predicate Resumable<D, R, C, M>(s: State<D, R, C, M>) {
    Refusal(s).None?
  }

  /** The rules every state the ratchet itself produces satisfies. */
  predicate Structural<D(==), R, C, M>(s: State<D, R, C, M>) {
    && s.maxSkipped == MAX_SKIPPED_KEYS
    && (s.dhr.Some? <==> s.cks.Some?)
    && (s.ckr.Some? ==> s.cks.Some?)
    && (s.cks.None? ==> s.ns == 0)
    && (s.ckr.None? ==> s.nr == 0 && s.pn == 0 && s.skipped == [])
    && |s.skipped| <= MAX_SKIPPED_KEYS
    && DistinctKeys(s.skipped)
  }
}

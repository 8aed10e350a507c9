/** `RATCHET_STATE_V1`: the byte encoding of a complete ratchet state. */
module RatchetCheckpoint {
  import opened Prelude
  import opened Bytes
  import opened RatchetFields

  const VERSION: byte := 1
  const FIXED_LEN: nat := 182
  const ENTRY_LEN: nat := 68
  const MAX_LEN: nat := FIXED_LEN + ENTRY_LEN * MAX_SKIPPED_KEYS

  /** version, flags, dhs, dhr, rk, cks, ckr, ns, nr, pn, max_skipped, count */
  const WIDTHS: seq<nat> := [1, 1, 32, 32, 32, 32, 32, 4, 4, 4, 4, 4]

  type Key = Key32
  type Entry = Skipped<Key, Key>
  type RatchetBytes = State<Key, Key, Key, Key>

  // ── Layout ────────────────────────────────────────────────────────────────

  function Flags(hasDhr: bool, hasCks: bool, hasCkr: bool): byte {
    (if hasDhr then 1 else 0) + (if hasCks then 2 else 0) + (if hasCkr then 4 else 0)
  }

  function HasFlag(flags: byte, bit: int): bool
    requires bit > 0
  {
    flags / bit % 2 == 1
  }

  function OrZeros(k: Option<Key>): Key {
    if k.Some? then k.value else Zeros(32)
  }

  function Field(present: bool, k: Key): Option<Key> {
    if present then Some(k) else None
  }

  function EncodeEntry(e: Entry): (b: Bytes)
    ensures |b| == ENTRY_LEN
  {
    e.dh + ToBe(e.n, 4) + e.mk
  }

  function EncodeEntries(s: seq<Entry>): (b: Bytes)
    ensures |b| == ENTRY_LEN * |s|
  {
    if s == [] then [] else EncodeEntry(s[0]) + EncodeEntries(s[1..])
  }

  /** The fields of a record as stored, before any check. */
  datatype Raw = Raw(version: byte, flags: byte, dhs: Key, dhr: Key, rk: Key, cks: Key, ckr: Key,
                     ns: U32, nr: U32, pn: U32, capacity: U32, count: U32, entries: Bytes)

  function RawParts(w: Raw): seq<Bytes> {
    [[w.version], [w.flags], w.dhs, w.dhr, w.rk, w.cks, w.ckr,
     ToBe(w.ns, 4), ToBe(w.nr, 4), ToBe(w.pn, 4), ToBe(w.capacity, 4), ToBe(w.count, 4), w.entries]
  }

  function FromParts(p: seq<Bytes>): Raw
    requires Fits(p, WIDTHS)
  {
    Raw(p[0][0], p[1][0], p[2], p[3], p[4], p[5], p[6],
        U32At(p[7]), U32At(p[8]), U32At(p[9]), U32At(p[10]), U32At(p[11]), p[12])
  }

  function RawOf(s: RatchetBytes): Raw
    requires s.maxSkipped == MAX_SKIPPED_KEYS && |s.skipped| <= MAX_SKIPPED_KEYS
  {
    Raw(VERSION, Flags(s.dhr.Some?, s.cks.Some?, s.ckr.Some?),
        s.dhs, OrZeros(s.dhr), s.rk, OrZeros(s.cks), OrZeros(s.ckr),
        s.ns, s.nr, s.pn, s.maxSkipped, |s.skipped|, EncodeEntries(s.skipped))
  }

  function Encode(s: RatchetBytes): Result<Bytes, CheckpointError> {
    match Refusal(s)
    case Some(e) => Err(e)
    case None => Ok(Join(RawParts(RawOf(s))))
  }

  function DecodeEntry(b: Bytes): Entry
    requires |b| == ENTRY_LEN
  {
    Skipped(b[..32], U32At(b[32..36]), b[36..])
  }

  /** The entries in `b`, appended to `before`; refused if a key repeats. */
  function DecodeEntries(b: Bytes, before: seq<Entry>): Result<seq<Entry>, CheckpointError>
    requires |b| % ENTRY_LEN == 0
  {
    if b == [] then Ok(before)
    else
      var e := DecodeEntry(b[..ENTRY_LEN]);
      if HoldsKey(before, e.dh, e.n) then Err(DuplicateSkippedKey)
      else DecodeEntries(b[ENTRY_LEN..], before + [e])
  }

  function Decode(record: Bytes): Result<RatchetBytes, CheckpointError> {
    if |record| > MAX_LEN then Err(Oversized(|record|))
    else if |record| < FIXED_LEN then Err(Truncated(|record|))
    else
      assert Sum(WIDTHS) == FIXED_LEN by { WidthsSum(); }
      Check(FromParts(Split(record, WIDTHS)))
  }

  function Check(w: Raw): Result<RatchetBytes, CheckpointError> {
    if w.version != VERSION then Err(UnsupportedVersion(w.version))
    else if w.flags >= 8 then Err(UnknownFlags(w.flags))
    else if w.capacity != MAX_SKIPPED_KEYS then Err(UnexpectedCapacity(w.capacity))
    else if w.count > MAX_SKIPPED_KEYS then Err(TooManySkippedKeys(w.count))
    else if |w.entries| != ENTRY_LEN * w.count then
      Err(LengthMismatch(FIXED_LEN + ENTRY_LEN * w.count, FIXED_LEN + |w.entries|))
    else
      var hasDhr, hasCks, hasCkr := HasFlag(w.flags, 1), HasFlag(w.flags, 2), HasFlag(w.flags, 4);
      var refusal := CheckState(hasDhr, hasCks, hasCkr, w.ns, w.nr, w.pn, w.count);
      if refusal.Some? then Err(refusal.value)
      else if !hasDhr && w.dhr != Zeros(32) then Err(AbsentFieldNotZero(FieldDhr))
      else if !hasCks && w.cks != Zeros(32) then Err(AbsentFieldNotZero(FieldCks))
      else if !hasCkr && w.ckr != Zeros(32) then Err(AbsentFieldNotZero(FieldCkr))
      else
        match DecodeEntries(w.entries, [])
        case Err(e) => Err(e)
        case Ok(skipped) =>
          Ok(State(w.dhs, Field(hasDhr, w.dhr), w.rk, Field(hasCks, w.cks), Field(hasCkr, w.ckr),
                   w.ns, w.nr, w.pn, skipped, MAX_SKIPPED_KEYS))
  }

  lemma WidthsSum()
    ensures Sum(WIDTHS) == FIXED_LEN
  {
    var w := [1, 1, 32, 32, 32, 32, 32, 4, 4, 4, 4, 4];
    assert Sum(w[6..]) == 32 + 20 by {
      assert w[6..] == [32, 4, 4, 4, 4, 4];
      assert [32, 4, 4, 4, 4, 4][1..] == [4, 4, 4, 4, 4];
      assert [4, 4, 4, 4, 4][1..] == [4, 4, 4, 4];
      assert [4, 4, 4, 4][1..] == [4, 4, 4];
      assert [4, 4, 4][1..] == [4, 4];
      assert [4, 4][1..] == [4];
    }
    assert w[1..] == [1, 32, 32, 32, 32, 32, 4, 4, 4, 4, 4];
    assert w[1..][1..] == w[2..];
    assert w[2..][1..] == w[3..];
    assert w[3..][1..] == w[4..];
    assert w[4..][1..] == w[5..];
    assert w[5..][1..] == w[6..];
  }

  // ── Encoding then decoding ────────────────────────────────────────────────

  lemma EntryRoundTrip(e: Entry)
    ensures DecodeEntry(EncodeEntry(e)) == e
  {
    U32RoundTrip(e.n);
    var b := EncodeEntry(e);
    assert b[..32] == e.dh && b[32..36] == ToBe(e.n, 4) && b[36..] == e.mk;
  }

  lemma {:induction false} EntriesRoundTrip(s: seq<Entry>, before: seq<Entry>)
    requires DistinctKeys(before + s)
    ensures DecodeEntries(EncodeEntries(s), before) == Ok(before + s)
    decreases |s|
  {
    if s == [] {
      assert before + s == before;
    } else {
      var b := EncodeEntries(s);
      EntryRoundTrip(s[0]);
      assert b[..ENTRY_LEN] == EncodeEntry(s[0]) && b[ENTRY_LEN..] == EncodeEntries(s[1..]);
      assert (before + s)[|before|] == s[0];
      assert forall i :: 0 <= i < |before| ==> (before + s)[i] == before[i];
      assert before + [s[0]] + s[1..] == before + s;
      EntriesRoundTrip(s[1..], before + [s[0]]);
    }
  }

  lemma FlagsRoundTrip(hasDhr: bool, hasCks: bool, hasCkr: bool)
    ensures var f := Flags(hasDhr, hasCks, hasCkr);
            f < 8 && HasFlag(f, 1) == hasDhr && HasFlag(f, 2) == hasCks && HasFlag(f, 4) == hasCkr
  {
  }

  lemma RawRoundTrip(w: Raw)
    ensures |Join(RawParts(w))| == FIXED_LEN + |w.entries|
    ensures var p := Split(Join(RawParts(w)), WIDTHS); Fits(p, WIDTHS) && FromParts(p) == w
  {
    WidthsSum();
    SplitJoin(RawParts(w), WIDTHS);
    FromRawParts(w);
  }

  lemma FromRawParts(w: Raw)
    ensures Fits(RawParts(w), WIDTHS) && FromParts(RawParts(w)) == w
  {
    U32RoundTrip(w.ns);
    U32RoundTrip(w.nr);
    U32RoundTrip(w.pn);
    U32RoundTrip(w.capacity);
    U32RoundTrip(w.count);
  }

  lemma CheckRawOf(s: RatchetBytes)
    requires Refusal(s).None? && DistinctKeys(s.skipped)
    ensures Check(RawOf(s)) == Ok(s)
  {
    FlagsRoundTrip(s.dhr.Some?, s.cks.Some?, s.ckr.Some?);
    EntriesRoundTrip(s.skipped, []);
    assert [] + s.skipped == s.skipped;
  }

  /** Every state that can be encoded decodes to itself, skipped keys in order. */
  lemma DecodeEncode(s: RatchetBytes)
    requires Encode(s).Ok? && DistinctKeys(s.skipped)
    ensures Decode(Encode(s).value) == Ok(s)
  {
    RawRoundTrip(RawOf(s));
    CheckRawOf(s);
  }

  // ── Decoding then encoding ────────────────────────────────────────────────

  lemma EntryBytes(b: Bytes)
    requires |b| == ENTRY_LEN
    ensures EncodeEntry(DecodeEntry(b)) == b
  {
    ToFromBe(b[32..36]);
    assert b == b[..32] + b[32..36] + b[36..];
  }

  lemma {:induction false} EntriesBytes(b: Bytes, before: seq<Entry>)
    requires |b| % ENTRY_LEN == 0 && DecodeEntries(b, before).Ok? && DistinctKeys(before)
    ensures var s := DecodeEntries(b, before).value;
            && |before| <= |s| && s[..|before|] == before && DistinctKeys(s)
            && EncodeEntries(s[|before|..]) == b
    decreases |b|
  {
    if b != [] {
      var e := DecodeEntry(b[..ENTRY_LEN]);
      EntriesBytes(b[ENTRY_LEN..], before + [e]);
      EntryBytes(b[..ENTRY_LEN]);
      var s := DecodeEntries(b, before).value;
      assert s[|before|..][0] == s[..|before| + 1][|before|] == e;
      assert s[|before|..][1..] == s[|before| + 1..];
      assert s[..|before|] == s[..|before| + 1][..|before|] == before;
    } else {
      assert before[|before|..] == [];
    }
  }

  lemma PartsRoundTrip(p: seq<Bytes>)
    requires Fits(p, WIDTHS)
    ensures RawParts(FromParts(p)) == p
  {
    ToFromBe(p[7]);
    ToFromBe(p[8]);
    ToFromBe(p[9]);
    ToFromBe(p[10]);
    ToFromBe(p[11]);
    assert p[0] == [p[0][0]] && p[1] == [p[1][0]];
  }

  lemma CheckedRaw(w: Raw)
    requires Check(w).Ok?
    ensures Refusal(Check(w).value).None? && RawOf(Check(w).value) == w
    ensures DistinctKeys(Check(w).value.skipped)
  {
    EntriesBytes(w.entries, []);
    var s := Check(w).value;
    assert s.skipped[0..] == s.skipped;
    assert Flags(s.dhr.Some?, s.cks.Some?, s.ckr.Some?) == w.flags;
  }

  /** Every accepted record is the encoding of the state it decodes to: a state
      has exactly one accepted record. */
  lemma EncodeDecode(record: Bytes)
    requires Decode(record).Ok?
    ensures Encode(Decode(record).value) == Ok(record)
    ensures DistinctKeys(Decode(record).value.skipped)
  {
    WidthsSum();
    var p := Split(record, WIDTHS);
    PartsRoundTrip(p);
    CheckedRaw(FromParts(p));
    JoinSplit(record, WIDTHS);
  }

  lemma RecordsAreUnique(a: Bytes, b: Bytes)
    requires Decode(a).Ok? && Decode(b) == Decode(a)
    ensures a == b
  {
    EncodeDecode(a);
    EncodeDecode(b);
  }

  // ── The loops of the source ───────────────────────────────────────────────

  lemma {:induction false} EntriesAppend(s: seq<Entry>, e: Entry)
    ensures EncodeEntries(s + [e]) == EncodeEntries(s) + EncodeEntry(e)
  {
    if s == [] {
      assert EncodeEntries([e]) == EncodeEntry(e) + [];
    } else {
      EntriesAppend(s[1..], e);
      assert (s + [e])[1..] == s[1..] + [e];
    }
  }

  /** Writes the fixed fields, then appends the skipped keys in a loop. */
  method ToCheckpoint(s: RatchetBytes) returns (r: Result<Bytes, CheckpointError>)
    ensures r == Encode(s)
  {
    var refusal := Refusal(s);
    if refusal.Some? {
      return Err(refusal.value);
    }
    var parts := RawParts(RawOf(s.(skipped := [])).(count := |s.skipped|))[..12];
    var fixed := Join(parts);
    var out := fixed;
    for i := 0 to |s.skipped|
      invariant out == fixed + EncodeEntries(s.skipped[..i])
    {
      out := out + EncodeEntry(s.skipped[i]);
      EntriesAppend(s.skipped[..i], s.skipped[i]);
      assert s.skipped[..i] + [s.skipped[i]] == s.skipped[..i + 1];
    }
    assert s.skipped[..|s.skipped|] == s.skipped;
    JoinAppend(parts, EncodeEntries(s.skipped));
    assert parts + [EncodeEntries(s.skipped)] == RawParts(RawOf(s));
    return Ok(out);
  }

  /** Reads the skipped keys in a loop, refusing a key already inserted. */
  method ReadEntries(b: Bytes) returns (r: Result<seq<Entry>, CheckpointError>)
    requires |b| % ENTRY_LEN == 0
    ensures r == DecodeEntries(b, [])
  {
    var skipped: seq<Entry> := [];
    var rest := b;
    while rest != []
      invariant |rest| % ENTRY_LEN == 0
      invariant DecodeEntries(b, []) == DecodeEntries(rest, skipped)
      decreases |rest|
    {
      var e := DecodeEntry(rest[..ENTRY_LEN]);
      if HoldsKey(skipped, e.dh, e.n) {
        return Err(DuplicateSkippedKey);
      }
      skipped := skipped + [e];
      rest := rest[ENTRY_LEN..];
    }
    return Ok(skipped);
  }
}

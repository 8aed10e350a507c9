/** Conditional batches: what `write_conditional` and `batch` of `durable.rs`
    compute, and that a batch is one simultaneous update. */
module ConditionalWrites {
  import opened Prelude
  import opened SymbolicKeys
  import opened StoreRecords

  /** `digest` is the whole record: SHA-256 is injective. */
  datatype Expect =
    | Absent
    | Predecessor(generation: U64, role: Role, our: Identity, peer: Identity, digest: Record)
    | Exactly(record: Record)

  datatype Action = Put(value: Record) | Delete | Check

  datatype Write = Write(key: StoreKey, expected: Expect, action: Action)

  datatype Conflict =
    | RecordExists
    | RecordMissing
    | StoredRecordUnreadable
    | StoredRecordInvalid(error: SessionError)
    | BindingMismatch(error: SessionError)
    | RoleMismatch
    | GenerationMismatch(expected: U64, found: U64)
    | RecordChanged
    | Superseded

  function CheckPrecondition(current: Option<Record>, expected: Expect): Option<Conflict> {
    match expected
    case Absent => if current.None? then None else Some(RecordExists)
    case Exactly(want) =>
      if current.None? then Some(RecordMissing)
      else if current.value.Unreadable? then Some(StoredRecordUnreadable)
      else if current.value == want then None else Some(RecordChanged)
    case Predecessor(generation, role, our, peer, digest) =>
      if current.None? then Some(RecordMissing)
      else if current.value.Unreadable? then Some(StoredRecordUnreadable)
      else
        match DecodeSession(current.value, our, peer)
        case Err(e) => Some(if e.OurIdentityMismatch? || e.PeerIdentityMismatch? then BindingMismatch(e) else StoredRecordInvalid(e))
        case Ok(found) =>
          if found.role != role then Some(RoleMismatch)
          else if found.generation != generation then Some(GenerationMismatch(generation, found.generation))
          else if current.value != digest then Some(Superseded)
          else None
  }

  /** The precondition of a transition from `s` holds of exactly one stored
      record: the one `s` was loaded from. */
  lemma PredecessorIsExact(s: SessionState, current: Option<Record>)
    requires Storable(s)
    ensures CheckPrecondition(current, Predecessor(s.generation, s.role, s.our, s.peer, SessionRecord(s))).None?
            <==> current == Some(SessionRecord(s))
  {
  }

  function Holds(c: Contents, w: Write): Option<Conflict> {
    CheckPrecondition(Lookup(c, w.key), w.expected)
  }

  /** The first write whose precondition fails, and why. */
  function FirstConflict(c: Contents, writes: seq<Write>): (r: Option<(nat, Conflict)>)
    ensures r.None? <==> forall i :: 0 <= i < |writes| ==> Holds(c, writes[i]).None?
    ensures r.Some? ==> r.value.0 < |writes| && Holds(c, writes[r.value.0]) == Some(r.value.1)
    ensures r.Some? ==> forall i :: 0 <= i < r.value.0 ==> Holds(c, writes[i]).None?
  {
    if writes == [] then None
    else
      assert forall i :: 0 <= i < |writes| - 1 ==> writes[..|writes| - 1][i] == writes[i];
      match FirstConflict(c, writes[..|writes| - 1])
      case Some(r) => Some(r)
      case None =>
        match Holds(c, writes[|writes| - 1])
        case Some(conflict) => Some((|writes| - 1, conflict))
        case None => None
  }

  lemma FirstConflictIsLeast(c: Contents, writes: seq<Write>, n: nat, conflict: Conflict)
    requires n < |writes| && Holds(c, writes[n]) == Some(conflict)
    requires forall i :: 0 <= i < n ==> Holds(c, writes[i]).None?
    ensures FirstConflict(c, writes) == Some((n, conflict))
  {
    var r := FirstConflict(c, writes);
    assert r.value.0 == n;
  }

  function ApplyOne(c: Contents, w: Write): Contents {
    match w.action
    case Put(value) => c[w.key := value]
    case Delete => c - {w.key}
    case Check => c
  }

  /** The writes one after the other, as the apply loop performs them. */
  function ApplyAll(c: Contents, writes: seq<Write>): Contents {
    if writes == [] then c else ApplyOne(ApplyAll(c, writes[..|writes| - 1]), writes[|writes| - 1])
  }

  predicate DistinctWrites(writes: seq<Write>) {
    forall i, j :: 0 <= i < j < |writes| ==> writes[i].key != writes[j].key
  }

  /** What one write leaves at its own key. */
  function Written(c: Contents, w: Write): Option<Record> {
    match w.action
    case Put(value) => Some(value)
    case Delete => None
    case Check => Lookup(c, w.key)
  }

  /** A batch of distinct keys is one simultaneous update: each named key ends as
      its own write says, every other key is untouched. */
  lemma {:induction false} BatchIsSimultaneous(c: Contents, writes: seq<Write>)
    requires DistinctWrites(writes)
    ensures forall i :: 0 <= i < |writes| ==>
              Lookup(ApplyAll(c, writes), writes[i].key) == Written(c, writes[i])
    ensures forall key :: (forall i :: 0 <= i < |writes| ==> writes[i].key != key) ==>
              Lookup(ApplyAll(c, writes), key) == Lookup(c, key)
  {
    if writes != [] {
      var init := writes[..|writes| - 1];
      BatchIsSimultaneous(c, init);
      assert forall i :: 0 <= i < |init| ==> init[i] == writes[i];
    }
  }

  lemma SameLookups(a: Contents, b: Contents)
    requires forall key :: Lookup(a, key) == Lookup(b, key)
    ensures a == b
  {
    forall key
      ensures key in a <==> key in b
      ensures key in a ==> a[key] == b[key]
    {
      assert Lookup(a, key) == Lookup(b, key);
    }
  }

  /** So the order of a batch does not matter: neither for what is written nor
      for whether it is. */
  lemma OrderDoesNotMatter(c: Contents, a: seq<Write>, b: seq<Write>)
    requires DistinctWrites(a) && DistinctWrites(b)
    requires forall w :: w in a <==> w in b
    ensures ApplyAll(c, a) == ApplyAll(c, b)
    ensures FirstConflict(c, a).None? <==> FirstConflict(c, b).None?
  {
    BatchIsSimultaneous(c, a);
    BatchIsSimultaneous(c, b);
    forall key
      ensures Lookup(ApplyAll(c, a), key) == Lookup(ApplyAll(c, b), key)
    {
      if i :| 0 <= i < |a| && a[i].key == key {
        assert a[i] in b;
      } else {
        forall j | 0 <= j < |b|
          ensures b[j].key != key
        {
          assert b[j] in a;
        }
      }
    }
    SameLookups(ApplyAll(c, a), ApplyAll(c, b));
    assert (forall i :: 0 <= i < |a| ==> Holds(c, a[i]).None?) <==> (forall w :: w in a ==> Holds(c, w).None?);
    assert (forall i :: 0 <= i < |b| ==> Holds(c, b[i]).None?) <==> (forall w :: w in b ==> Holds(c, w).None?);
  }

  // ── Commit outcomes ───────────────────────────────────────────────────────

  /** What the storage layer does to a transaction, beyond what it contains: an
      error before `COMMIT` keeps nothing; an error from `COMMIT` leaves the
      caller unable to tell whether the transaction was kept. */
  datatype Fault = NoFault | FailsBefore | CommitStored | CommitLost

  datatype WriteFailure = ConflictAt(index: nat, conflict: Conflict) | NotCommitted | OutcomeUnknown

  predicate Kept(fault: Fault) {
    fault.NoFault? || fault.CommitStored?
  }

  function WriteResult(c: Contents, writes: seq<Write>, fault: Fault): Result<(), WriteFailure> {
    if fault.FailsBefore? then Err(NotCommitted)
    else
      match FirstConflict(c, writes)
      case Some((i, conflict)) => Err(ConflictAt(i, conflict))
      case None => if fault.NoFault? then Ok(()) else Err(OutcomeUnknown)
  }

  function AfterWrite(c: Contents, writes: seq<Write>, fault: Fault): Contents {
    if FirstConflict(c, writes).None? && Kept(fault) then ApplyAll(c, writes) else c
  }

  // ── Side writes ───────────────────────────────────────────────────────────

  datatype SideAction = SidePut(value: Record) | SideDelete | SideCheck

  /** A record written in the same transaction as a session checkpoint. */
  datatype SideWrite = SideWrite(key: StoreKey, expected: Option<Record>, action: SideAction)

  datatype SideWriteError = ReservedKey | DuplicateKey

  function NewSideWrite(key: StoreKey, expected: Option<Record>, action: SideAction): (r: Result<SideWrite, SideWriteError>)
    ensures r.Ok? ==> !r.value.key.SessionKey?
  {
    if key.SessionKey? then Err(ReservedKey) else Ok(SideWrite(key, expected, action))
  }

  function AsWrite(w: SideWrite): Write {
    Write(w.key,
          match w.expected case None => Absent case Some(record) => Exactly(record),
          match w.action case SidePut(value) => Put(value) case SideDelete => Delete case SideCheck => Check)
  }

  function AsWrites(side: seq<SideWrite>): (r: seq<Write>)
    ensures |r| == |side| && forall i :: 0 <= i < |side| ==> r[i] == AsWrite(side[i])
  {
    seq(|side|, i requires 0 <= i < |side| => AsWrite(side[i]))
  }

  /** The session write followed by the side writes, refused if any key is named
      twice. */
  method Batch(session: Write, side: seq<SideWrite>) returns (r: Result<seq<Write>, SideWriteError>)
    ensures DistinctWrites([session] + AsWrites(side)) ==> r == Ok([session] + AsWrites(side))
    ensures !DistinctWrites([session] + AsWrites(side)) ==> r == Err(DuplicateKey)
  {
    ghost var all := [session] + AsWrites(side);
    var writes := [session];
    for n := 0 to |side|
      invariant writes == all[..n + 1]
      invariant DistinctWrites(writes)
    {
      var w := side[n];
      if exists i :: 0 <= i < |writes| && writes[i].key == w.key {
        assert all[n + 1] == AsWrite(w);
        assert forall i :: 0 <= i < |writes| ==> writes[i] == all[i];
        return Err(DuplicateKey);
      }
      writes := writes + [AsWrite(w)];
    }
    assert all[..|side| + 1] == all;
    return Ok(writes);
  }

  /** No batch built from side writes touches another peer's session record, and
      the session record itself changes only as the session write says. */
  lemma SideWritesSpareSessions(c: Contents, session: Write, side: seq<SideWrite>, peer: Identity)
    requires session.key.SessionKey?
    requires forall w :: w in side ==> NewSideWrite(w.key, w.expected, w.action) == Ok(w)
    requires DistinctWrites([session] + AsWrites(side))
    ensures var after := ApplyAll(c, [session] + AsWrites(side));
            Lookup(after, SessionKey(peer))
            == if session.key == SessionKey(peer) then Written(c, session) else Lookup(c, SessionKey(peer))
  {
    var writes := [session] + AsWrites(side);
    BatchIsSimultaneous(c, writes);
    assert writes[0] == session;
    forall i | 1 <= i < |writes|
      ensures !writes[i].key.SessionKey?
    {
      assert writes[i] == AsWrite(side[i - 1]) && side[i - 1] in side;
    }
  }
}

/** The encrypted store as the connections that share it see it. */
module Storage {
  import opened Prelude
  import opened StoreRecords
  import opened ConditionalWrites

  datatype CommitFailure = CommitRefused | CommitUnknown

  class EncryptedStore {
    var contents: Contents
    /** Every version the store has held, the current one last. */
    ghost var versions: seq<Contents>

    ghost predicate Valid()
      reads this
    {
      |versions| > 0 && versions[|versions| - 1] == contents
    }

    constructor (initial: Contents)
      ensures Valid() && versions == [initial]
    {
      contents, versions := initial, [initial];
    }

    /** Other connections may commit any number of transactions here. */
    method Others()
      requires Valid()
      modifies this
      ensures Valid() && old(versions) < versions
    {
      ghost var between: seq<Contents> := *;
      contents := *;
      versions := versions + between + [contents];
    }

    /** One read outside any transaction. */
    method Get(key: StoreKey) returns (r: Option<Record>)
      requires Valid()
      modifies this
      ensures Valid() && old(versions) <= versions
      ensures r == Lookup(contents, key)
    {
      Others();
      r := Lookup(contents, key);
    }

    /** The keys stored, as one read lists them. */
    method ListKeys() returns (keys: set<StoreKey>)
      requires Valid()
      modifies this
      ensures Valid() && old(versions) <= versions
      ensures keys == contents.Keys
    {
      Others();
      keys := contents.Keys;
    }

    /** Takes the write lock: until `Commit`, no other connection commits. */
    method Begin() returns (tx: Contents)
      requires Valid()
      modifies this
      ensures Valid() && old(versions) <= versions
      ensures tx == contents
    {
      Others();
      tx := contents;
    }

    /** Ends the transaction whose view of the store is `tx`. */
    method Commit(tx: Contents, fault: Fault) returns (r: Result<(), CommitFailure>)
      requires Valid()
      modifies this
      ensures Valid()
      ensures contents == if Kept(fault) then tx else old(contents)
      ensures versions == old(versions) + [contents]
      ensures r == match fault
                   case NoFault => Ok(())
                   case FailsBefore => Err(CommitRefused)
                   case _ => Err(CommitUnknown)
    {
      if Kept(fault) {
        contents := tx;
      }
      versions := versions + [contents];
      match fault
      case NoFault => return Ok(());
      case FailsBefore => return Err(CommitRefused);
      case _ => return Err(CommitUnknown);
    }

    /** Checks every precondition, then applies every write, in one transaction:
        all or none, against the version the transaction found. */
    method WriteConditional(writes: seq<Write>, fault: Fault) returns (r: Result<(), WriteFailure>)
      requires Valid()
      modifies this
      ensures Valid() && old(versions) <= versions && |versions| > |old(versions)|
      ensures var found := versions[|versions| - 2];
              contents == AfterWrite(found, writes, fault) && r == WriteResult(found, writes, fault)
    {
      var tx := Begin();
      ghost var found := tx;
      if fault.FailsBefore? {
        var _ := Commit(tx, fault);
        return Err(NotCommitted);
      }
      for n := 0 to |writes|
        invariant Valid() && contents == found
        invariant versions == old(versions) || old(versions) <= versions
        invariant forall i :: 0 <= i < n ==> Holds(found, writes[i]).None?
      {
        match CheckPrecondition(Lookup(tx, writes[n].key), writes[n].expected)
        case Some(conflict) =>
          FirstConflictIsLeast(found, writes, n, conflict);
          var _ := Commit(tx, FailsBefore);
          return Err(ConflictAt(n, conflict));
        case None =>
      }
      for n := 0 to |writes|
        invariant Valid() && contents == found
        invariant old(versions) <= versions
        invariant tx == ApplyAll(found, writes[..n])
      {
        assert writes[..n + 1][..n] == writes[..n];
        match writes[n].action
        case Put(value) => tx := tx[writes[n].key := value];
        case Delete => tx := tx - {writes[n].key};
        case Check =>
      }
      assert writes[..|writes|] == writes;
      var committed := Commit(tx, fault);
      return if committed.Ok? then Ok(()) else Err(OutcomeUnknown);
    }
  }
}

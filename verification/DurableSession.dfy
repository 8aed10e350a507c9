/** `DurableSession` and `ProvisionalSession`: a session whose ratchet advances
    only through conditionally committed checkpoints. */
module DurableSessions {
  import opened Prelude
  import opened RatchetFields
  import opened SymbolicKeys
  import opened RatchetModel
  import opened Staging
  import opened StoreRecords
  import opened ConditionalWrites
  import opened Storage
  import Ratchet

  datatype InstanceStatus = Active | StatusUnresolved(attempted: U64) | StatusConflicted

  datatype StagingError =
    | StagingUnresolved(attempted: U64)
    | StagingConflicted
    | GenerationExhausted
    | Refused(error: StageError)

  datatype CommitError =
    | CommitUnresolved(attempted: U64)
    | CommitConflicted
    | StaleTransition
    | CommitConflict(conflict: Conflict)
    | SideConflict(index: nat, conflict: Conflict)
    | CommitNotCommitted
    | CommitOutcomeUnknown
    | CommitSideWrite(error: SideWriteError)

  /** `s` advanced to `ratchet`, one generation later. */
  function Successor(s: SessionState, ratchet: RatchetState): SessionState
    requires s.generation < U64_MAX
  {
    s.(generation := s.generation + 1, ratchet := ratchet)
  }

  /** The write that replaces the record of `base`, and only that record. */
  function TransitionWrite(base: SessionState, next: SessionState): Write {
    Write(SessionKey(base.peer),
          Predecessor(base.generation, base.role, base.our, base.peer, SessionRecord(base)),
          Put(SessionRecord(next)))
  }

  function CreationWrite(s: SessionState): Write {
    Write(SessionKey(s.peer), Absent, Put(SessionRecord(s)))
  }

  /** A prepared transition; `instance` is the session it was staged from. */
  datatype Staged<T> = Staged(instance: DurableSession, ratchet: Ratchet.DoubleRatchet, record: Record, output: T,
                              generation: U64, base: U64)

  /** How a transition reports a conditional write whose first entry replaces the
      session record: a conflict there means the store no longer holds this
      instance's state, a conflict elsewhere leaves the instance usable. */
  function Report<T>(written: Result<(), WriteFailure>, output: T): Result<T, CommitError> {
    match written
    case Ok(_) => Ok(output)
    case Err(NotCommitted) => Err(CommitNotCommitted)
    case Err(OutcomeUnknown) => Err(CommitOutcomeUnknown)
    case Err(ConflictAt(i, conflict)) => Err(if i == 0 then CommitConflict(conflict) else SideConflict(i - 1, conflict))
  }

  function StatusAfter(written: Result<(), WriteFailure>, attempted: U64): InstanceStatus {
    match written
    case Err(OutcomeUnknown) => StatusUnresolved(attempted)
    case Err(ConflictAt(i, _)) => if i == 0 then StatusConflicted else Active
    case _ => Active
  }

  class DurableSession {
    const role: Role
    const our: Identity
    const peer: Identity
    const ad: Ad
    var ratchet: Ratchet.DoubleRatchet
    var generation: U64
    var digest: Record
    var status: InstanceStatus

    function State(): SessionState
      reads this, ratchet
    {
      SessionState(role, generation, our, peer, ad, ratchet.State())
    }

    /** The instance holds exactly the record it last loaded or committed. */
    ghost predicate Valid()
      reads this, ratchet
    {
      ratchet.Valid() && digest == SessionRecord(State())
    }

    /** `staged` is an unmodified transition of this kind of session. */
    ghost predicate Prepared<T>(staged: Staged<T>)
      reads this, ratchet, staged.ratchet
    {
      && staged.ratchet.Valid()
      && (staged.instance == this && staged.base == generation ==>
            && generation < U64_MAX
            && staged.generation == generation + 1
            && staged.record == SessionRecord(Successor(State(), staged.ratchet.State())))
    }

    /** The session a stored or freshly encoded record describes. */
    constructor (s: SessionState)
      requires WellFormed(s.ratchet)
      ensures Valid() && State() == s && status == Active && fresh(ratchet)
    {
      role, our, peer, ad := s.role, s.our, s.peer, s.ad;
      ratchet := new Ratchet.DoubleRatchet.FromState(s.ratchet);
      generation, digest, status := s.generation, SessionRecord(s), Active;
    }

    function Blocked(): Option<StagingError>
      reads this
    {
      match status
      case StatusUnresolved(attempted) => Some(StagingUnresolved(attempted))
      case StatusConflicted => Some(StagingConflicted)
      case Active => if generation == U64_MAX then Some(GenerationExhausted) else None
    }

    method StageEncrypt(plaintext: Payload, nonce: nat)
      returns (r: Result<Staged<(Header, Cipher<Payload>)>, StagingError>)
      requires Valid()
      ensures Valid()
      ensures Blocked().Some? ==> r == Err(Blocked().value)
      ensures Blocked().None? ==>
                match Staging.StageEncrypt(ratchet.State(), plaintext, ad, nonce)
                case Err(e) => r == Err(Refused(e))
                case Ok(e) =>
                  && r.Ok? && fresh(r.value.ratchet) && Prepared(r.value)
                  && r.value.instance == this && r.value.base == generation
                  && r.value.ratchet.State() == e.state && r.value.output == (e.header, e.cipher)
    {
      var blocked := Blocked();
      if blocked.Some? {
        return Err(blocked.value);
      }
      var copy := new Ratchet.DoubleRatchet.StagedCopy(ratchet);
      var out := copy.Encrypt(plaintext, ad, nonce);
      if out.Err? {
        return Err(Refused(RatchetRefused(out.error)));
      }
      var refusal := Refusal(copy.State());
      if refusal.Some? {
        return Err(Refused(CheckpointRefused(refusal.value)));
      }
      var next := Successor(State(), copy.State());
      return Ok(Staged(this, copy, SessionRecord(next), out.value, next.generation, generation));
    }

    method StageDecrypt(wire: Wire<Payload>, newDh: DhKey) returns (r: Result<Staged<Payload>, StagingError>)
      requires Valid()
      ensures Valid()
      ensures Blocked().Some? ==> r == Err(Blocked().value)
      ensures Blocked().None? ==>
                match Staging.StageDecrypt(ratchet.State(), wire.header, wire.cipher, ad, newDh)
                case Err(e) => r == Err(Refused(e))
                case Ok(d) =>
                  && r.Ok? && fresh(r.value.ratchet) && Prepared(r.value)
                  && r.value.instance == this && r.value.base == generation
                  && r.value.ratchet.State() == d.state && r.value.output == d.plaintext
    {
      var blocked := Blocked();
      if blocked.Some? {
        return Err(blocked.value);
      }
      var copy := new Ratchet.DoubleRatchet.StagedCopy(ratchet);
      var out := copy.Decrypt(wire.header, wire.cipher, ad, newDh);
      if out.Err? {
        return Err(Refused(RatchetRefused(out.error)));
      }
      var refusal := Refusal(copy.State());
      if refusal.Some? {
        return Err(Refused(CheckpointRefused(refusal.value)));
      }
      var next := Successor(State(), copy.State());
      return Ok(Staged(this, copy, SessionRecord(next), out.value, next.generation, generation));
    }

    function CommitBlocked<T>(staged: Staged<T>): Option<CommitError>
      reads this
    {
      match status
      case StatusUnresolved(attempted) => Some(CommitUnresolved(attempted))
      case StatusConflicted => Some(CommitConflicted)
      case Active =>
        if staged.instance != this || staged.base != generation then Some(StaleTransition) else None
    }

    /** Installs the staged ratchet and releases its output only if the store
        reports every write committed. */
    method CommitWith<T>(store: EncryptedStore, staged: Staged<T>, side: seq<SideWrite>, fault: Fault)
      returns (r: Result<T, CommitError>)
      requires Valid() && store.Valid() && Prepared(staged)
      modifies this, store
      ensures Valid() && store.Valid() && old(store.versions) <= store.versions
      ensures r.Err? ==> State() == old(State())
      ensures old(CommitBlocked(staged)).Some? ==>
                r == Err(old(CommitBlocked(staged)).value) && unchanged(this) && unchanged(store)
      ensures old(CommitBlocked(staged)).None? ==>
                var writes := [old(TransitionWrite(State(), Successor(State(), staged.ratchet.State())))] + AsWrites(side);
                if !DistinctWrites(writes) then
                  r == Err(CommitSideWrite(DuplicateKey)) && unchanged(this) && unchanged(store)
                else
                  && |store.versions| > |old(store.versions)|
                  && var found := store.versions[|store.versions| - 2];
                  && store.contents == AfterWrite(found, writes, fault)
                  && r == Report(WriteResult(found, writes, fault), staged.output)
                  && status == StatusAfter(WriteResult(found, writes, fault), old(generation) + 1)
                  && (r.Ok? ==> State() == old(Successor(State(), staged.ratchet.State())))
    {
      var blocked := CommitBlocked(staged);
      if blocked.Some? {
        return Err(blocked.value);
      }
      var writes := Batch(Write(SessionKey(peer), Predecessor(generation, role, our, peer, digest), Put(staged.record)), side);
      if writes.Err? {
        return Err(CommitSideWrite(writes.error));
      }
      var result := store.WriteConditional(writes.value, fault);
      match result
      case Ok(_) =>
        ratchet, generation, digest := staged.ratchet, staged.generation, staged.record;
        return Ok(staged.output);
      case Err(NotCommitted) => return Err(CommitNotCommitted);
      case Err(OutcomeUnknown) =>
        status := StatusUnresolved(staged.generation);
        return Err(CommitOutcomeUnknown);
      case Err(ConflictAt(i, conflict)) =>
        if i == 0 {
          status := StatusConflicted;
          return Err(CommitConflict(conflict));
        }
        return Err(SideConflict(i - 1, conflict));
    }
  }

  /** `CommitWith` for a batch known to name distinct keys: one conditional write
      over the record of `base`. */
  method CommitOver<T>(session: DurableSession, store: EncryptedStore, staged: Staged<T>, side: seq<SideWrite>, fault: Fault,
                       ghost base: SessionState, ghost next: SessionState)
    returns (r: Result<T, CommitError>)
    requires session.Valid() && store.Valid() && session.Prepared(staged) && session.CommitBlocked(staged).None?
    requires base == session.State() && next == Successor(base, staged.ratchet.State())
    requires DistinctWrites([TransitionWrite(base, next)] + AsWrites(side))
    modifies session, store
    ensures store.Valid() && old(store.versions) <= store.versions && |store.versions| > |old(store.versions)|
    ensures var (found, writes) := (store.versions[|store.versions| - 2], [TransitionWrite(base, next)] + AsWrites(side));
            store.contents == AfterWrite(found, writes, fault) && r == Report(WriteResult(found, writes, fault), staged.output)
  {
    r := session.CommitWith(store, staged, side, fault);
  }

  // ── Creating, loading, promoting ──────────────────────────────────────────

  datatype OpenError =
    | OpenStore
    | AlreadyExists
    | OpenSideConflict(index: nat, conflict: Conflict)
    | OpenInvalid(error: SessionError)
    | OpenNotCommitted
    | OpenOutcomeUnknown
    | OpenSideWrite(refused: SideWriteError)
    | OpenStale

  /** Why a session cannot be encoded, if it cannot. */
  function EncodeError(s: SessionState): Option<SessionError> {
    if s.ad != ExpectedAd(s.role, s.our, s.peer) then Some(AdMismatch)
    else
      match Refusal(s.ratchet)
      case Some(e) => Some(RatchetRecordError(e))
      case None => None
  }

  /** How creating a session reports a conditional write. */
  function OpenFailure(failure: WriteFailure): OpenError {
    match failure
    case ConflictAt(i, conflict) => if i == 0 then AlreadyExists else OpenSideConflict(i - 1, conflict)
    case NotCommitted => OpenNotCommitted
    case OutcomeUnknown => OpenOutcomeUnknown
  }

  /** Stores `next` as a session that must not exist yet, with `side`. */
  method StoreNew(store: EncryptedStore, next: SessionState, side: seq<SideWrite>, fault: Fault)
    returns (r: Result<(), OpenError>)
    requires store.Valid()
    modifies store
    ensures store.Valid() && old(store.versions) <= store.versions
    ensures var writes := [CreationWrite(next)] + AsWrites(side);
            if !DistinctWrites(writes) then r == Err(OpenSideWrite(DuplicateKey)) && unchanged(store)
            else
              && |store.versions| > |old(store.versions)|
              && var found := store.versions[|store.versions| - 2];
              && store.contents == AfterWrite(found, writes, fault)
              && r == match WriteResult(found, writes, fault) case Ok(_) => Ok(()) case Err(e) => Err(OpenFailure(e))
  {
    var writes := Batch(CreationWrite(next), side);
    if writes.Err? {
      return Err(OpenSideWrite(writes.error));
    }
    var result := store.WriteConditional(writes.value, fault);
    return match result case Ok(_) => Ok(()) case Err(e) => Err(OpenFailure(e));
  }

  /** Stores a newly established session as generation 0. */
  method CreateWith(store: EncryptedStore, session: SessionState, side: seq<SideWrite>, fault: Fault)
    returns (r: Result<DurableSession, OpenError>)
    requires store.Valid() && WellFormed(session.ratchet)
    modifies store
    ensures store.Valid() && old(store.versions) <= store.versions
    ensures EncodeError(session.(generation := 0)).Some? ==>
              r == Err(OpenInvalid(EncodeError(session.(generation := 0)).value)) && unchanged(store)
    ensures EncodeError(session.(generation := 0)).None? ==>
              var writes := [CreationWrite(session.(generation := 0))] + AsWrites(side);
              if !DistinctWrites(writes) then r == Err(OpenSideWrite(DuplicateKey)) && unchanged(store)
              else
                && |store.versions| > |old(store.versions)|
                && var found := store.versions[|store.versions| - 2];
                && store.contents == AfterWrite(found, writes, fault)
                && match WriteResult(found, writes, fault)
                   case Ok(_) => r.Ok? && fresh(r.value) && r.value.Valid() && r.value.State() == session.(generation := 0)
                   case Err(e) => r == Err(OpenFailure(e))
  {
    var s := session.(generation := 0);
    var e := EncodeError(s);
    if e.Some? {
      return Err(OpenInvalid(e.value));
    }
    var result := StoreNew(store, s, side, fault);
    if result.Err? {
      return Err(result.error);
    }
    var created := new DurableSession(s);
    return Ok(created);
  }

  /** Loads the stored session for `peer`; `None` only if there is no record. */
  method Load(store: EncryptedStore, our: Identity, peer: Identity) returns (r: Result<Option<DurableSession>, OpenError>)
    requires store.Valid()
    modifies store
    ensures store.Valid() && old(store.versions) <= store.versions
    ensures match Lookup(store.contents, SessionKey(peer))
            case None => r == Ok(None)
            case Some(Unreadable) => r == Err(OpenStore)
            case Some(record) =>
              match DecodeSession(record, our, peer)
              case Err(e) => r == Err(OpenInvalid(e))
              case Ok(s) =>
                && r.Ok? && r.value.Some? && fresh(r.value.value) && fresh(r.value.value.ratchet)
                && r.value.value.Valid() && r.value.value.State() == s && r.value.value.status == Active
  {
    var record := store.Get(SessionKey(peer));
    if record.None? {
      return Ok(None);
    }
    if record.value.Unreadable? {
      return Err(OpenStore);
    }
    var s := DecodeSession(record.value, our, peer);
    if s.Err? {
      return Err(OpenInvalid(s.error));
    }
    var session := new DurableSession(s.value);
    return Ok(Some(session));
  }

  /** What a responder derives from a handshake nothing has authenticated yet. It
      can only decrypt the peer's first message, and be stored by that. */
  class ProvisionalSession {
    const inner: DurableSession

    ghost predicate Valid()
      reads inner, inner.ratchet
    {
      inner.Valid() && inner.generation == 0 && inner.status == Active
    }

    constructor (s: SessionState)
      requires WellFormed(s.ratchet) && s.generation == 0
      ensures Valid() && inner.State() == s && fresh(inner) && fresh(inner.ratchet)
    {
      inner := new DurableSession(s);
    }

    method StageFirstDecrypt(wire: Wire<Payload>, newDh: DhKey) returns (r: Result<Staged<Payload>, StagingError>)
      requires Valid()
      ensures Valid()
      ensures match Staging.StageDecrypt(inner.ratchet.State(), wire.header, wire.cipher, inner.ad, newDh)
              case Err(e) => r == Err(Refused(e))
              case Ok(d) =>
                && r.Ok? && fresh(r.value.ratchet) && inner.Prepared(r.value)
                && r.value.instance == inner && r.value.base == 0
                && r.value.ratchet.State() == d.state && r.value.output == d.plaintext
    {
      r := inner.StageDecrypt(wire, newDh);
    }

    /** Stores the staged state as a new session at generation 1, only if the
        peer has no session record. */
    method PromoteWith(store: EncryptedStore, staged: Staged<Payload>, side: seq<SideWrite>, fault: Fault)
      returns (r: Result<Payload, OpenError>)
      requires Valid() && store.Valid() && inner.Prepared(staged)
      modifies inner, store
      ensures store.Valid() && old(store.versions) <= store.versions
      ensures staged.instance != inner || staged.base != 0 ==> r == Err(OpenStale) && unchanged(store) && unchanged(inner)
      ensures staged.instance == inner && staged.base == 0 ==>
                var next := old(Successor(inner.State(), staged.ratchet.State()));
                var writes := [CreationWrite(next)] + AsWrites(side);
                if !DistinctWrites(writes) then r == Err(OpenSideWrite(DuplicateKey)) && unchanged(store)
                else
                  && |store.versions| > |old(store.versions)|
                  && var found := store.versions[|store.versions| - 2];
                  && store.contents == AfterWrite(found, writes, fault)
                  && match WriteResult(found, writes, fault)
                     case Ok(_) => r == Ok(staged.output) && inner.Valid() && inner.State() == next
                     case Err(e) => r == Err(OpenFailure(e))
    {
      if staged.instance != inner || staged.base != 0 {
        return Err(OpenStale);
      }
      var next := Successor(inner.State(), staged.ratchet.State());
      var result := StoreNew(store, next, side, fault);
      if result.Err? {
        return Err(result.error);
      }
      inner.ratchet, inner.generation, inner.digest := staged.ratchet, staged.generation, staged.record;
      return Ok(staged.output);
    }
  }

  /** `PromoteWith` for a batch known to name distinct keys. */
  method PromoteOver(candidate: ProvisionalSession, store: EncryptedStore, staged: Staged<Payload>, side: seq<SideWrite>,
                     fault: Fault, ghost next: SessionState)
    returns (r: Result<Payload, OpenError>)
    requires candidate.Valid() && store.Valid() && candidate.inner.Prepared(staged)
    requires staged.instance == candidate.inner && staged.base == 0
    requires next == Successor(candidate.inner.State(), staged.ratchet.State())
    requires DistinctWrites([CreationWrite(next)] + AsWrites(side))
    modifies candidate.inner, store
    ensures store.Valid() && old(store.versions) <= store.versions && |store.versions| > |old(store.versions)|
    ensures var (found, writes) := (store.versions[|store.versions| - 2], [CreationWrite(next)] + AsWrites(side));
            && store.contents == AfterWrite(found, writes, fault)
            && r == match WriteResult(found, writes, fault) case Ok(_) => Ok(staged.output) case Err(e) => Err(OpenFailure(e))
  {
    r := candidate.PromoteWith(store, staged, side, fault);
  }
}

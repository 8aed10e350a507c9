/** Why the calls of `Messenger` fail: what their reads showed, at versions no
    older than the one a call began with. */
module MessengerCauses {
  import opened Prelude
  import opened RatchetFields
  import opened SymbolicKeys
  import opened RatchetModel
  import opened RatchetSafety
  import opened Staging
  import opened StoreRecords
  import opened ConditionalWrites
  import opened DurableSessions
  import opened MessengerModel
  import opened MessengerRuns
  import opened MessengerGuarantees
  import opened MessengerRecovery
  import opened MessengerBatches
  import opened MessagingReports

  // ── Reading a handle and its session ──────────────────────────────────────

  /** What reading the handle's record answers, if no peer. */
  function HandleError(c: Contents, handle: nat): Option<MessagingError> {
    match Lookup(c, HandleKey(handle))
    case None => Some(NoSession)
    case Some(HandleRecord(_)) => None
    case Some(Unreadable) => Some(StoreFailure)
    case Some(_) => Some(InvalidRecord)
  }

  /** What loading the peer's session answers, if no session. */
  function SessionLoadError(c: Contents, our: Identity, p: Identity): Option<MessagingError> {
    match Lookup(c, SessionKey(p))
    case None => Some(MissingSession)
    case Some(Unreadable) => Some(StoreFailure)
    case Some(record) =>
      match DecodeSession(record, our, p)
      case Err(e) => Some(InvalidSession(e))
      case Ok(_) => None
  }

  ghost predicate HandleFailed(versions: seq<Contents>, since: nat, handle: nat, e: MessagingError) {
    exists k: nat :: Within(versions, since, k) && HandleError(versions[k], handle) == Some(e)
  }

  ghost predicate Named(versions: seq<Contents>, since: nat, handle: nat, p: Identity) {
    exists k: nat :: Within(versions, since, k) && Lookup(versions[k], HandleKey(handle)) == Some(HandleRecord(p))
  }

  ghost predicate SessionFailed(versions: seq<Contents>, since: nat, our: Identity, handle: nat, e: MessagingError) {
    exists p: Identity, k: nat :: Named(versions, since, handle, p) && Within(versions, since, k)
      && SessionLoadError(versions[k], our, p) == Some(e)
  }

  ghost predicate LoadFailed(versions: seq<Contents>, since: nat, our: Identity, handle: nat, e: MessagingError) {
    HandleFailed(versions, since, handle, e) || SessionFailed(versions, since, our, handle, e)
  }

  /** The session of the peer the handle named, as it was stored. */
  ghost predicate Shown(versions: seq<Contents>, since: nat, our: Identity, handle: nat, base: SessionState) {
    && Storable(base) && base.our == our && Named(versions, since, handle, base.peer)
    && exists k: nat :: Within(versions, since, k) && Lookup(versions[k], SessionKey(base.peer)) == Some(SessionRecord(base))
  }

  lemma HandleFails(versions: seq<Contents>, since: nat, handle: nat, k: nat, e: MessagingError)
    requires Within(versions, since, k) && HandleError(versions[k], handle) == Some(e)
    ensures HandleFailed(versions, since, handle, e)
  {
  }

  lemma IsNamed(versions: seq<Contents>, since: nat, handle: nat, p: Identity, j: nat)
    requires Within(versions, since, j) && Lookup(versions[j], HandleKey(handle)) == Some(HandleRecord(p))
    ensures Named(versions, since, handle, p)
  {
  }

  lemma SessionFails(versions: seq<Contents>, since: nat, our: Identity, handle: nat, p: Identity, k: nat, e: MessagingError)
    requires Named(versions, since, handle, p) && Within(versions, since, k) && SessionLoadError(versions[k], our, p) == Some(e)
    ensures SessionFailed(versions, since, our, handle, e)
  {
    hide Named, SessionLoadError;
  }

  lemma IsShown(versions: seq<Contents>, since: nat, our: Identity, handle: nat, base: SessionState, k: nat)
    requires Named(versions, since, handle, base.peer) && Within(versions, since, k)
    requires Lookup(versions[k], SessionKey(base.peer)) == Some(SessionRecord(base)) && Storable(base) && base.our == our
    ensures Shown(versions, since, our, handle, base)
  {
    hide Named, Storable;
  }

  lemma PriorFails(versions: seq<Contents>, since: nat, handle: nat, client: ClientId, p: Identity, k: nat, e: MessagingError)
    requires Named(versions, since, handle, p) && Within(versions, since, k) && PriorError(versions[k], p, client) == Some(e)
    ensures PriorFailed(versions, since, handle, client, e)
  {
    hide Named, PriorError;
  }

  lemma DuplicateFails(versions: seq<Contents>, since: nat, handle: nat, id: MessageId, p: Identity, k: nat, e: MessagingError)
    requires Named(versions, since, handle, p) && Within(versions, since, k) && e in DuplicateError(versions[k], p, id)
    ensures DuplicateFailed(versions, since, handle, id, e)
  {
    hide Named, DuplicateError;
  }

  // ── A commit that was not plainly kept ────────────────────────────────────

  /** The call attempted its transaction, and the commit failed or left its outcome
      unknown. */
  predicate CommitFailed(step: Option<Step>, e: MessagingError) {
    step.Some? &&
      match e
      case KeptNothing => step.value.event.fault.FailsBefore?
      case UnknownOutcome(_) => step.value.event.fault.CommitStored? || step.value.event.fault.CommitLost?
      case RepeatableOutcomeUnknown => step.value.event.fault.CommitStored? || step.value.event.fault.CommitLost?
      case _ => false
  }

  /** The call attempted its transaction, and found that what it had read no longer
      held. */
  ghost predicate Overtaken(d: Device, next: nat, versions: seq<Contents>, step: Option<Step>) {
    && step.Some? && step.value.at < |versions| && Formed(d, next, step.value.event.tx)
    && !Fires(d, next, versions[step.value.at], step.value.event.tx)
  }

  predicate Unresolvable(was: map<nat, Unresolved>, handle: nat, e: MessagingError) {
    handle in was && e == StillUnresolved(was[handle].attempted)
  }

  // ── Sending ───────────────────────────────────────────────────────────────

  /** What reading an earlier send answers, if it cannot be read. */
  function PriorError(c: Contents, p: Identity, client: ClientId): Option<MessagingError> {
    match Lookup(c, SendIdKey(p, client))
    case Some(Unreadable) => Some(StoreFailure)
    case Some(SentRecord(id)) =>
      (match Lookup(c, OutboxKey(p, id))
       case Some(Unreadable) => Some(StoreFailure)
       case Some(record) => if DecodesOutbox(record) then None else Some(InvalidRecord)
       case None => None)
    case Some(AbandonedRecord(_)) => None
    case Some(_) => Some(InvalidRecord)
    case None => None
  }

  ghost predicate PriorFailed(versions: seq<Contents>, since: nat, handle: nat, client: ClientId, e: MessagingError) {
    exists p: Identity, k: nat :: Named(versions, since, handle, p) && Within(versions, since, k)
      && PriorError(versions[k], p, client) == Some(e)
  }

  /** No encryption can be staged on the session: it has no sending chain yet, or
      one counter is at its end. */
  predicate CannotEncrypt(s: SessionState) {
    s.ratchet.cks.None? || s.ratchet.ns >= 0xFFFF_FFFE
  }

  ghost predicate SessionExhausted(versions: seq<Contents>, since: nat, our: Identity, handle: nat) {
    exists base: SessionState :: Shown(versions, since, our, handle, base) && base.generation == U64_MAX
  }

  ghost predicate SendRefused(versions: seq<Contents>, since: nat, our: Identity, handle: nat) {
    exists base: SessionState :: Shown(versions, since, our, handle, base) && CannotEncrypt(base)
  }

  /** Why a send fails. */
  ghost predicate SendFailed(d: Device, versions: seq<Contents>, since: nat, was: map<nat, Unresolved>, handle: nat,
                             client: ClientId, step: Option<Step>, e: MessagingError)
  {
    match e
    case InvalidClientMessageId => !(1 <= |client| <= MAX_CLIENT_MESSAGE_ID_LEN)
    case StillUnresolved(_) => Unresolvable(was, handle, e)
    case NoSession => HandleFailed(versions, since, handle, e)
    case MissingSession => SessionFailed(versions, since, d.our, handle, e)
    case InvalidSession(_) => SessionFailed(versions, since, d.our, handle, e)
    case StoreFailure => LoadFailed(versions, since, d.our, handle, e) || PriorFailed(versions, since, handle, client, e)
    case InvalidRecord => HandleFailed(versions, since, handle, e) || PriorFailed(versions, since, handle, client, e)
    case ExhaustedGenerations => SessionExhausted(versions, since, d.our, handle)
    case RatchetFailure(_) => SendRefused(versions, since, d.our, handle)
    case KeptNothing => CommitFailed(step, e)
    case UnknownOutcome(_) => CommitFailed(step, e)
    case Conflicting(_) => Overtaken(d, 0, versions, step)
    case InconsistentStore => Overtaken(d, 0, versions, step)
    case _ => false
  }

  lemma SendLoadFails(d: Device, versions: seq<Contents>, since: nat, least: nat, was: map<nat, Unresolved>, handle: nat,
                      client: ClientId, e: MessagingError)
    requires least <= since && LoadFailed(versions, since, d.our, handle, e)
    ensures SendFailed(d, versions, least, was, handle, client, None, e)
  {
    hide HandleFailed, SessionFailed, PriorFailed;
    LoadFailedLater(versions, versions, since, least, d.our, handle, e);
    LoadErrors(versions, least, d.our, handle, e);
  }

  lemma SendFailsUnread(d: Device, versions: seq<Contents>, since: nat, was: map<nat, Unresolved>, handle: nat, client: ClientId,
                        e: MessagingError)
    requires || (!(1 <= |client| <= MAX_CLIENT_MESSAGE_ID_LEN) && e == InvalidClientMessageId)
             || Unresolvable(was, handle, e)
    ensures SendFailed(d, versions, since, was, handle, client, None, e)
  {
    hide HandleFailed, SessionFailed, PriorFailed;
  }

  lemma SendHandleFails(d: Device, versions: seq<Contents>, since: nat, was: map<nat, Unresolved>, handle: nat, client: ClientId,
                        j: nat, e: MessagingError)
    requires Within(versions, since, j) && HandleError(versions[j], handle) == Some(e)
    ensures SendFailed(d, versions, since, was, handle, client, None, e)
  {
    HandleFails(versions, since, handle, j, e);
    hide HandleFailed, SessionFailed, PriorFailed;
  }

  lemma SendPriorFails(d: Device, versions: seq<Contents>, since: nat, was: map<nat, Unresolved>, handle: nat, client: ClientId,
                       p: Identity, j: nat, e: MessagingError)
    requires Within(versions, since, j) && Lookup(versions[j], HandleKey(handle)) == Some(HandleRecord(p))
    requires PriorError(versions[|versions| - 1], p, client) == Some(e)
    ensures SendFailed(d, versions, since, was, handle, client, None, e)
  {
    hide HandleFailed, SessionFailed, PriorFailed, PriorError, Named;
    IsNamed(versions, since, handle, p, j);
    PriorFails(versions, since, handle, client, p, |versions| - 1, e);
    PriorErrors(versions[|versions| - 1], p, client);
  }

  lemma PriorErrors(c: Contents, p: Identity, client: ClientId)
    ensures var e := PriorError(c, p, client); e.None? || e.value.StoreFailure? || e.value.InvalidRecord?
  {
  }

  /** What a send finds when it stages the encryption. */
  lemma SendStagingFails(d: Device, read: seq<Contents>, versions: seq<Contents>, since: nat, least: nat, was: map<nat, Unresolved>,
                         handle: nat, client: ClientId, base: SessionState, e: MessagingError)
    requires read <= versions && least <= since && Shown(read, since, d.our, handle, base)
    requires (e == ExhaustedGenerations && base.generation == U64_MAX) || (e.RatchetFailure? && CannotEncrypt(base))
    ensures SendFailed(d, versions, least, was, handle, client, None, e)
  {
    ShownLater(read, versions, since, least, d.our, handle, base);
    hide Shown, CannotEncrypt;
  }

  /** A send that reached its commit fails only for what the commit found. */
  lemma SendCommitFails(d: Device, versions: seq<Contents>, since: nat, was: map<nat, Unresolved>, now: map<nat, Unresolved>,
                        handle: nat, client: ClientId, s: Step, r: Result<SendOutcome, MessagingError>)
    requires s.at < |versions| && s.event.tx.Send? && Formed(d, 0, s.event.tx)
    requires SendDone(d, was, now, versions[s.at], s.event, r) && r.Err?
    ensures SendFailed(d, versions, since, was, handle, client, Some(s), r.error)
  {
    hide Formed, Fires, StagedSend;
  }

  // ── Receiving ─────────────────────────────────────────────────────────────

  ghost predicate DuplicateFailed(versions: seq<Contents>, since: nat, handle: nat, id: MessageId, e: MessagingError) {
    exists p: Identity, k: nat :: Named(versions, since, handle, p) && Within(versions, since, k)
      && e in DuplicateError(versions[k], p, id)
  }

  /** The message does not open on the session, or opening it would move a chain
      past what can be stored. */
  predicate CannotDecrypt(s: SessionState, wire: Wire<Payload>, newDh: DhKey, e: StageError)
    requires WellFormed(s.ratchet)
  {
    StageDecrypt(s.ratchet, wire.header, wire.cipher, s.ad, newDh) == Err(e)
  }

  ghost predicate ReceiveRefused(versions: seq<Contents>, since: nat, our: Identity, handle: nat, wire: Wire<Payload>, newDh: DhKey,
                                 e: StageError)
  {
    exists base: SessionState :: Shown(versions, since, our, handle, base) && WellFormed(base.ratchet)
      && CannotDecrypt(base, wire, newDh, e)
  }

  /** Why a receive fails. */
  ghost predicate ReceiveFailed(d: Device, versions: seq<Contents>, since: nat, was: map<nat, Unresolved>, handle: nat,
                                wire: Wire<Payload>, newDh: DhKey, step: Option<Step>, e: MessagingError)
  {
    match e
    case StillUnresolved(_) => Unresolvable(was, handle, e)
    case NoSession => HandleFailed(versions, since, handle, e)
    case MissingSession => SessionFailed(versions, since, d.our, handle, e)
    case InvalidSession(_) => SessionFailed(versions, since, d.our, handle, e)
    case StoreFailure => LoadFailed(versions, since, d.our, handle, e) || DuplicateFailed(versions, since, handle, wire, e)
    case InvalidRecord => HandleFailed(versions, since, handle, e) || DuplicateFailed(versions, since, handle, wire, e)
    case ExhaustedGenerations => SessionExhausted(versions, since, d.our, handle)
    case RatchetFailure(s) => ReceiveRefused(versions, since, d.our, handle, wire, newDh, s)
    case KeptNothing => CommitFailed(step, e)
    case UnknownOutcome(_) => CommitFailed(step, e)
    case Conflicting(_) => Overtaken(d, newDh, versions, step)
    case InconsistentStore => Overtaken(d, newDh, versions, step)
    case _ => false
  }

  lemma StorableIsWellFormed(s: SessionState)
    requires Storable(s)
    ensures WellFormed(s.ratchet)
  {
  }

  lemma WithinSince(versions: seq<Contents>, since: nat, least: nat)
    requires least <= since
    ensures forall k :: Within(versions, since, k) ==> Within(versions, least, k)
  {
  }

  lemma ReceiveLoadFails(d: Device, versions: seq<Contents>, since: nat, was: map<nat, Unresolved>, handle: nat,
                         wire: Wire<Payload>, newDh: DhKey, e: MessagingError)
    requires LoadFailed(versions, since, d.our, handle, e) || Unresolvable(was, handle, e)
    ensures ReceiveFailed(d, versions, since, was, handle, wire, newDh, None, e)
  {
    hide HandleFailed, SessionFailed, DuplicateFailed;
    LoadErrors(versions, since, d.our, handle, e);
  }

  /** What a receive finds of the message itself. */
  lemma ReceiveDuplicateFails(d: Device, versions: seq<Contents>, since: nat, was: map<nat, Unresolved>, handle: nat,
                              wire: Wire<Payload>, newDh: DhKey, p: Identity, j: nat, step: Option<Step>, e: MessagingError)
    requires Within(versions, since, j) && Lookup(versions[j], HandleKey(handle)) == Some(HandleRecord(p))
    requires exists k: nat :: Within(versions, since, k) && e in DuplicateError(versions[k], p, wire)
    ensures ReceiveFailed(d, versions, since, was, handle, wire, newDh, step, e)
  {
    var k: nat :| Within(versions, since, k) && e in DuplicateError(versions[k], p, wire);
    assert e.StoreFailure? || e.InvalidRecord?;
    IsNamed(versions, since, handle, p, j);
    DuplicateFails(versions, since, handle, wire, p, k, e);
    hide HandleFailed, SessionFailed, DuplicateFailed;
  }

  lemma ReceiveStagingFails(d: Device, read: seq<Contents>, versions: seq<Contents>, since: nat, was: map<nat, Unresolved>,
                            handle: nat, wire: Wire<Payload>, newDh: DhKey, base: SessionState, e: MessagingError)
    requires read <= versions && Shown(read, since, d.our, handle, base) && WellFormed(base.ratchet)
    requires (e == ExhaustedGenerations && base.generation == U64_MAX)
             || (e.RatchetFailure? && CannotDecrypt(base, wire, newDh, e.staging))
    ensures ReceiveFailed(d, versions, since, was, handle, wire, newDh, None, e)
  {
    ShownLater(read, versions, since, since, d.our, handle, base);
    hide Shown, CannotDecrypt;
  }

  /** A receive that reached its commit fails only for what the commit found, or
      for the duplicate it then could not read. */
  lemma ReceiveCommitFails(d: Device, versions: seq<Contents>, since: nat, least: nat, was: map<nat, Unresolved>,
                           now: map<nat, Unresolved>, handle: nat, j: nat, s: Step, r: Result<Received, MessagingError>)
    requires s.event.tx.Receive? && s.at < |versions| && Formed(d, s.event.tx.newDh, s.event.tx) && least <= since
    requires ReceiveDone(d, s.event.tx.newDh, was, now, handle, versions, versions[s.at], s.event, r) && r.Err?
    requires !Fires(d, s.event.tx.newDh, versions[s.at], s.event.tx) && !s.event.fault.FailsBefore? ==>
               AnswerFailed(versions, since, s.event.tx.base.peer, s.event.tx.wire, r.error)
    requires Within(versions, least, j) && Lookup(versions[j], HandleKey(handle)) == Some(HandleRecord(s.event.tx.base.peer))
    ensures ReceiveFailed(d, versions, least, was, handle, s.event.tx.wire, s.event.tx.newDh, Some(s), r.error)
  {
    var tx := s.event.tx;
    hide Formed, Fires, StagedReceive, ReadAsDuplicate, DuplicateError;
    if !Fires(d, tx.newDh, versions[s.at], tx) && !s.event.fault.FailsBefore? && !r.error.Conflicting? && !r.error.InconsistentStore? {
      var k: nat :| Within(versions, since, k) && r.error in DuplicateError(versions[k], tx.base.peer, tx.wire);
      assert Within(versions, least, k);
      ReceiveDuplicateFails(d, versions, least, was, handle, tx.wire, tx.newDh, tx.base.peer, j, Some(s), r.error);
    }
  }

  // ── First contact ─────────────────────────────────────────────────────────

  ghost predicate PrekeysHeld(versions: seq<Contents>, since: nat, prekeys: Prekeys) {
    exists k: nat :: Within(versions, since, k) && Lookup(versions[k], PrekeysKey) == Some(PrekeyRecord(prekeys))
  }

  ghost predicate NoPrekeys(versions: seq<Contents>, since: nat) {
    exists k: nat :: Within(versions, since, k) && (PrekeysKey !in versions[k] || !versions[k][PrekeysKey].PrekeyRecord?)
  }

  /** The prekeys held could not answer the handshake. */
  ghost predicate Unanswered(versions: seq<Contents>, since: nat, handshake: InitiatorHandshake, x: PrekeyRefusal) {
    handshake.InitiatorHandshake? &&
      exists prekeys: Prekeys :: PrekeysHeld(versions, since, prekeys) && CheckAnswerable(prekeys, handshake) == Some(x)
  }

  /** The message does not open on what the handshake derives from prekeys held. */
  ghost predicate CandidateRefuses(d: Device, versions: seq<Contents>, since: nat, handshake: InitiatorHandshake,
                                   wire: Wire<Payload>, newDh: DhKey, e: StageError)
  {
    handshake.InitiatorHandshake? &&
      exists prekeys: Prekeys :: PrekeysHeld(versions, since, prekeys) && CheckAnswerable(prekeys, handshake).None?
                                 && CannotDecrypt(Candidate(d.our, handshake, prekeys), wire, newDh, e)
  }

  /** Prekeys that were held were replaced, or used, before the commit. */
  ghost predicate PrekeysSpent(versions: seq<Contents>, since: nat) {
    exists prekeys: Prekeys, k: nat :: PrekeysHeld(versions, since, prekeys) && Within(versions, since, k)
      && PrekeySpent(versions[k], prekeys)
  }

  ghost predicate NamesAnother(versions: seq<Contents>, since: nat, handle: nat, peer: Identity) {
    exists q: Identity :: q != peer && Named(versions, since, handle, q)
  }

  ghost predicate SlotTaken(versions: seq<Contents>, since: nat, handle: nat) {
    exists q: Identity :: Named(versions, since, handle, q)
  }

  /** The prekeys held could not answer the handshake, for one reason or another. */
  ghost predicate Unanswerable(versions: seq<Contents>, since: nat, handshake: InitiatorHandshake) {
    exists x: PrekeyRefusal :: Unanswered(versions, since, handshake, x)
  }

  /** Why receiving on the session under the peer's handle fails, once the handle
      was found taken: there is none only if it went away in between. */
  ghost predicate TakenFailed(d: Device, versions: seq<Contents>, since: nat, was: map<nat, Unresolved>, handle: nat,
                              wire: Wire<Payload>, newDh: DhKey, receipt: Option<Step>, e: MessagingError)
  {
    || (SlotTaken(versions, since, handle) && ReceiveFailed(d, versions, since, was, handle, wire, newDh, receipt, e))
    || (e != NoSession && HandleFailed(versions, since, handle, e))
  }

  /** Why receiving on the session that took the slot fails. */
  ghost predicate InsteadFailed(d: Device, versions: seq<Contents>, since: nat, was: map<nat, Unresolved>, peer: Identity,
                                wire: Wire<Payload>, newDh: DhKey, receipt: Option<Step>, e: MessagingError)
  {
    || TakenFailed(d, versions, since, was, d.handleOf(peer), wire, newDh, receipt, e)
    || (receipt.None? && e == HandleCollision && NamesAnother(versions, since, d.handleOf(peer), peer))
    || (receipt.None? && e == SessionExists
        && (HandleFailed(versions, since, d.handleOf(peer), NoSession) || NamesAnother(versions, since, d.handleOf(peer), peer)))
  }

  lemma TakenReceiveFails(d: Device, versions: seq<Contents>, since: nat, least: nat, was: map<nat, Unresolved>, handle: nat,
                          q: Identity, j: nat, wire: Wire<Payload>, newDh: DhKey, receipt: Option<Step>, e: MessagingError)
    requires least <= since && ReceiveFailed(d, versions, since, was, handle, wire, newDh, receipt, e)
    requires Within(versions, least, j) && Lookup(versions[j], HandleKey(handle)) == Some(HandleRecord(q))
    ensures TakenFailed(d, versions, least, was, handle, wire, newDh, receipt, e)
  {
    IsNamed(versions, least, handle, q, j);
    hide ReceiveFailed, HandleFailed, Named;
    ReceiveFailedLater(d, versions, versions, since, least, was, handle, wire, newDh, receipt, e);
  }

  /** The handle, read again after the slot was found taken. */
  lemma InsteadHandleFails(d: Device, versions: seq<Contents>, since: nat, was: map<nat, Unresolved>, peer: Identity,
                           wire: Wire<Payload>, newDh: DhKey, k: nat, e: MessagingError)
    requires Within(versions, since, k)
    requires var found := Lookup(versions[k], HandleKey(d.handleOf(peer)));
             || (e != NoSession && HandleError(versions[k], d.handleOf(peer)) == Some(e))
             || (e == HandleCollision && found.Some? && found.value.HandleRecord? && found.value.peer != peer)
             || (e == SessionExists && found.None?)
             || (e == SessionExists && found.Some? && found.value.HandleRecord? && found.value.peer != peer)
    ensures InsteadFailed(d, versions, since, was, peer, wire, newDh, None, e)
  {
    var found := Lookup(versions[k], HandleKey(d.handleOf(peer)));
    if found.Some? && found.value.HandleRecord? {
      IsNamed(versions, since, d.handleOf(peer), found.value.peer, k);
    } else if found.None? {
      HandleFails(versions, since, d.handleOf(peer), k, NoSession);
    }
    if HandleError(versions[k], d.handleOf(peer)) == Some(e) {
      HandleFails(versions, since, d.handleOf(peer), k, e);
    }
    hide ReceiveFailed, Named, HandleFailed, SlotTaken;
  }

  /** Why accepting a first message fails. */
  ghost predicate AcceptFailed(d: Device, versions: seq<Contents>, since: nat, was: map<nat, Unresolved>, peer: Identity,
                               handshake: InitiatorHandshake, wire: Wire<Payload>, newDh: DhKey,
                               attempt: Option<Step>, receipt: Option<Step>, e: MessagingError)
  {
    || (e == InvalidHandshake && handshake.MalformedHandshake?)
    || (e == InconsistentStore && handshake.InitiatorHandshake? && handshake.identity != peer)
    || (e == PrekeysUnavailable && NoPrekeys(versions, since))
    || (e.PrekeyRefused? && Unanswered(versions, since, handshake, e.refusal)
        && HandleFailed(versions, since, d.handleOf(peer), NoSession))
    || Unresolvable(was, d.handleOf(peer), e)
    || (attempt.None? && e.RatchetFailure? && CandidateRefuses(d, versions, since, handshake, wire, newDh, e.staging))
    || (e.ExtraConflict? && Overtaken(d, newDh, versions, attempt) && PrekeysSpent(versions, since))
    || (e.Conflicting? && Overtaken(d, newDh, versions, attempt))
    || CommitFailed(attempt, e)
    || (attempt.None? && Unanswerable(versions, since, handshake)
        && TakenFailed(d, versions, since, was, d.handleOf(peer), wire, newDh, receipt, e))
    || (Overtaken(d, newDh, versions, attempt) && InsteadFailed(d, versions, since, was, peer, wire, newDh, receipt, e))
  }

  lemma NamesAnotherLater(versions: seq<Contents>, later: seq<Contents>, since: nat, least: nat, handle: nat, peer: Identity)
    requires versions <= later && least <= since && NamesAnother(versions, since, handle, peer)
    ensures NamesAnother(later, least, handle, peer)
  {
    hide Named;
    var q: Identity :| q != peer && Named(versions, since, handle, q);
    NamedLater(versions, later, since, least, handle, q);
  }

  lemma SlotTakenLater(versions: seq<Contents>, later: seq<Contents>, since: nat, least: nat, handle: nat)
    requires versions <= later && least <= since && SlotTaken(versions, since, handle)
    ensures SlotTaken(later, least, handle)
  {
    hide Named;
    var q: Identity :| Named(versions, since, handle, q);
    NamedLater(versions, later, since, least, handle, q);
  }

  lemma InsteadFailedLater(d: Device, versions: seq<Contents>, later: seq<Contents>, since: nat, least: nat, was: map<nat, Unresolved>,
                           peer: Identity, wire: Wire<Payload>, newDh: DhKey, receipt: Option<Step>, e: MessagingError)
    requires versions <= later && least <= since && InsteadFailed(d, versions, since, was, peer, wire, newDh, receipt, e)
    ensures InsteadFailed(d, later, least, was, peer, wire, newDh, receipt, e)
  {
    hide ReceiveFailed, HandleFailed, NamesAnother, SlotTaken;
    var handle := d.handleOf(peer);
    if ReceiveFailed(d, versions, since, was, handle, wire, newDh, receipt, e) && SlotTaken(versions, since, handle) {
      ReceiveFailedLater(d, versions, later, since, least, was, handle, wire, newDh, receipt, e);
      SlotTakenLater(versions, later, since, least, handle);
    }
    if HandleFailed(versions, since, handle, e) {
      HandleFailedLater(versions, later, since, least, handle, e);
    }
    if HandleFailed(versions, since, handle, NoSession) {
      HandleFailedLater(versions, later, since, least, handle, NoSession);
    }
    if NamesAnother(versions, since, handle, peer) {
      NamesAnotherLater(versions, later, since, least, handle, peer);
    }
  }

  /** The acceptance found the slot taken, and the message was not received on the
      session there either. */
  lemma AcceptInsteadFails(d: Device, versions: seq<Contents>, since: nat, least: nat, was: map<nat, Unresolved>, peer: Identity,
                           handshake: InitiatorHandshake, wire: Wire<Payload>, newDh: DhKey, attempt: Option<Step>,
                           receipt: Option<Step>, e: MessagingError)
    requires least <= since && Overtaken(d, newDh, versions, attempt)
    requires InsteadFailed(d, versions, since, was, peer, wire, newDh, receipt, e)
    ensures AcceptFailed(d, versions, least, was, peer, handshake, wire, newDh, attempt, receipt, e)
  {
    hide InsteadFailed, Overtaken, Unanswered, Unanswerable, TakenFailed, CandidateRefuses, NoPrekeys, PrekeysSpent,
         HandleFailed, CommitFailed;
    InsteadFailedLater(d, versions, versions, since, least, was, peer, wire, newDh, receipt, e);
  }

  /** The handshake could not be answered, and the message was not received on the
      session there is either. */
  lemma AcceptTakenFails(d: Device, versions: seq<Contents>, since: nat, was: map<nat, Unresolved>, peer: Identity,
                         handshake: InitiatorHandshake, wire: Wire<Payload>, newDh: DhKey, prekeys: Prekeys,
                         receipt: Option<Step>, e: MessagingError)
    requires handshake.InitiatorHandshake? && PrekeysHeld(versions, since, prekeys) && CheckAnswerable(prekeys, handshake).Some?
    requires TakenFailed(d, versions, since, was, d.handleOf(peer), wire, newDh, receipt, e)
    ensures AcceptFailed(d, versions, since, was, peer, handshake, wire, newDh, None, receipt, e)
  {
    hide InsteadFailed, Overtaken, TakenFailed, CandidateRefuses, NoPrekeys, PrekeysHeld, PrekeysSpent, HandleFailed,
         CommitFailed, CheckAnswerable;
    assert Unanswered(versions, since, handshake, CheckAnswerable(prekeys, handshake).value);
  }

  /** What an acceptance finds before it stages anything. */
  lemma AcceptFailsEarly(d: Device, versions: seq<Contents>, since: nat, was: map<nat, Unresolved>, peer: Identity,
                         handshake: InitiatorHandshake, wire: Wire<Payload>, newDh: DhKey, prekeys: Prekeys, k: nat, e: MessagingError)
    requires || (e == InvalidHandshake && handshake.MalformedHandshake?)
             || (e == InconsistentStore && handshake.InitiatorHandshake? && handshake.identity != peer)
             || (e == PrekeysUnavailable && NoPrekeys(versions, since))
             || Unresolvable(was, d.handleOf(peer), e)
             || (e.PrekeyRefused? && handshake.InitiatorHandshake? && PrekeysHeld(versions, since, prekeys)
                 && CheckAnswerable(prekeys, handshake) == Some(e.refusal)
                 && Within(versions, since, k) && HandleError(versions[k], d.handleOf(peer)) == Some(NoSession))
             || (handshake.InitiatorHandshake? && PrekeysHeld(versions, since, prekeys) && CheckAnswerable(prekeys, handshake).Some?
                 && e != NoSession && Within(versions, since, k) && HandleError(versions[k], d.handleOf(peer)) == Some(e))
    ensures AcceptFailed(d, versions, since, was, peer, handshake, wire, newDh, None, None, e)
  {
    hide CandidateRefuses, NoPrekeys, PrekeysHeld, PrekeysSpent, HandleFailed, CommitFailed, HandleError, ReceiveFailed, NamesAnother,
         CheckAnswerable, SlotTaken, InsteadFailed;
    if Within(versions, since, k) && HandleError(versions[k], d.handleOf(peer)) == Some(e) {
      HandleFails(versions, since, d.handleOf(peer), k, e);
      if e != NoSession && handshake.InitiatorHandshake? && CheckAnswerable(prekeys, handshake).Some?
        && PrekeysHeld(versions, since, prekeys) {
        assert Unanswered(versions, since, handshake, CheckAnswerable(prekeys, handshake).value);
      }
    } else if Within(versions, since, k) && HandleError(versions[k], d.handleOf(peer)) == Some(NoSession) {
      HandleFails(versions, since, d.handleOf(peer), k, NoSession);
    }
  }

  /** An acceptance that reached its commit, and did not find the slot taken. */
  lemma AcceptCommitFails(d: Device, versions: seq<Contents>, since: nat, was: map<nat, Unresolved>, now: map<nat, Unresolved>,
                          peer: Identity, s: Step, r: Result<Received, MessagingError>)
    requires s.event.tx.Accept? && s.at < |versions| && since <= s.at + 1 && Formed(d, s.event.tx.newDh, s.event.tx)
    requires AcceptDone(d, was, now, versions[s.at], s.event, r) && r.Err?
    requires !Fires(d, s.event.tx.newDh, versions[s.at], s.event.tx) && !s.event.fault.FailsBefore? ==>
               r.error.Conflicting? || (r.error.ExtraConflict? && PrekeySpent(versions[s.at], s.event.tx.prekeys))
    requires PrekeysHeld(versions, since, s.event.tx.prekeys)
    ensures AcceptFailed(d, versions, since, was, peer, s.event.tx.handshake, s.event.tx.wire, s.event.tx.newDh, Some(s), None, r.error)
  {
    hide Formed, Fires, StagedReceive, Candidate, PrekeysHeld, Unanswered, Unanswerable, TakenFailed, CandidateRefuses,
         InsteadFailed, NoPrekeys, PrekeySpent;
    if r.error.ExtraConflict? {
      assert Within(versions, since, s.at) && PrekeySpent(versions[s.at], s.event.tx.prekeys);
    }
  }

  lemma AcceptStagingFails(d: Device, versions: seq<Contents>, since: nat, was: map<nat, Unresolved>, handshake: InitiatorHandshake,
                           prekeys: Prekeys, wire: Wire<Payload>, newDh: DhKey, e: MessagingError)
    requires handshake.InitiatorHandshake? && CheckAnswerable(prekeys, handshake).None? && PrekeysHeld(versions, since, prekeys)
    requires e.RatchetFailure? && CannotDecrypt(Candidate(d.our, handshake, prekeys), wire, newDh, e.staging)
    ensures AcceptFailed(d, versions, since, was, handshake.identity, handshake, wire, newDh, None, None, e)
  {
    hide Candidate, PrekeysHeld, CannotDecrypt, InsteadFailed, NoPrekeys, Unanswered, Unanswerable, TakenFailed;
  }

  lemma PrekeysRead(versions: seq<Contents>, since: nat)
    requires |versions| > 0 && since <= |versions|
    ensures match Lookup(versions[|versions| - 1], PrekeysKey)
            case Some(PrekeyRecord(prekeys)) => PrekeysHeld(versions, since, prekeys)
            case _ => NoPrekeys(versions, since)
  {
    assert Within(versions, since, |versions| - 1);
  }

  // ── Acknowledgements, abandonment and removal ─────────────────────────────

  datatype Upkeep = UpkeepAckOut | UpkeepAbandon | UpkeepAckIn

  /** What one look at the message's rows answers, if they stop the transaction. */
  function UpkeepError(u: Upkeep, c: Contents, p: Identity, id: MessageId): Option<MessagingError> {
    match u
    case UpkeepAckOut => if Lookup(c, OutboxKey(p, id)) == Some(Unreadable) then Some(StoreFailure) else None
    case UpkeepAbandon =>
      (match Lookup(c, OutboxKey(p, id))
       case None => None
       case Some(Unreadable) => Some(StoreFailure)
       case Some(record) => if DecodesOutbox(record) then None else Some(InvalidRecord))
    case UpkeepAckIn =>
      (match Lookup(c, InboxKey(p, id))
       case None =>
         (match Lookup(c, SeenKey(p, id))
          case None => Some(UnknownMessage)
          case Some(Unreadable) => Some(StoreFailure)
          case Some(_) => None)
       case Some(Unreadable) => Some(StoreFailure)
       case Some(InboxRecord(m)) => if m.id == id then None else Some(InvalidRecord)
       case Some(_) => Some(InvalidRecord))
  }

  /** Why an acknowledgement or an abandonment fails. */
  ghost predicate UpkeepFailed(u: Upkeep, versions: seq<Contents>, since: nat, handle: nat, id: MessageId, step: Option<Step>,
                               e: MessagingError)
  {
    || (step.None? && HandleFailed(versions, since, handle, e))
    || (step.None? && exists p: Identity, k: nat ::
          Named(versions, since, handle, p) && Within(versions, since, k) && UpkeepError(u, versions[k], p, id) == Some(e))
    || CommitFailed(step, e)
  }

  lemma UpkeepHandleFails(u: Upkeep, versions: seq<Contents>, since: nat, handle: nat, id: MessageId, k: nat, e: MessagingError)
    requires Within(versions, since, k) && HandleError(versions[k], handle) == Some(e)
    ensures UpkeepFailed(u, versions, since, handle, id, None, e)
  {
    HandleFails(versions, since, handle, k, e);
  }

  lemma UpkeepRowFails(u: Upkeep, versions: seq<Contents>, since: nat, handle: nat, id: MessageId, p: Identity, j: nat, e: MessagingError)
    requires |versions| > 0 && since <= |versions| && UpkeepError(u, versions[|versions| - 1], p, id) == Some(e)
    requires Within(versions, since, j) && Lookup(versions[j], HandleKey(handle)) == Some(HandleRecord(p))
    ensures UpkeepFailed(u, versions, since, handle, id, None, e)
  {
    hide UpkeepError, HandleFailed, Named, CommitFailed;
    IsNamed(versions, since, handle, p, j);
    assert Within(versions, since, |versions| - 1);
  }

  lemma UpkeepCommitFails(u: Upkeep, versions: seq<Contents>, since: nat, handle: nat, id: MessageId, s: Step,
                          r: Result<bool, MessagingError>)
    requires r == Repeatable(s.event.fault)
    ensures r.Err? ==> UpkeepFailed(u, versions, since, handle, id, Some(s), r.error)
  {
    hide HandleFailed, Named;
  }

  lemma UpkeepFailedLater(u: Upkeep, versions: seq<Contents>, later: seq<Contents>, since: nat, least: nat, handle: nat, id: MessageId,
                          step: Option<Step>, e: MessagingError)
    requires versions <= later && least <= since && UpkeepFailed(u, versions, since, handle, id, step, e)
    ensures UpkeepFailed(u, later, least, handle, id, step, e)
  {
    hide HandleFailed, Named, UpkeepError, CommitFailed;
    if HandleFailed(versions, since, handle, e) {
      HandleFailedLater(versions, later, since, least, handle, e);
    }
    if !CommitFailed(step, e) && !HandleFailed(versions, since, handle, e) {
      var p: Identity, k: nat :| Named(versions, since, handle, p) && Within(versions, since, k)
        && UpkeepError(u, versions[k], p, id) == Some(e);
      NamedLater(versions, later, since, least, handle, p);
      assert Within(later, least, k) && UpkeepError(u, later[k], p, id) == Some(e);
    }
  }

  ghost predicate ShownEstablished(versions: seq<Contents>, since: nat, our: Identity, handle: nat) {
    exists base: SessionState :: Shown(versions, since, our, handle, base) && Established(base)
  }

  predicate HasOutgoing(c: Contents, p: Identity) {
    exists key :: key in c && key.OutboxKey? && key.peer == p
  }

  ghost predicate ShownPending(versions: seq<Contents>, since: nat, our: Identity, handle: nat) {
    exists base: SessionState, k: nat ::
      Shown(versions, since, our, handle, base) && Within(versions, since, k) && HasOutgoing(versions[k], base.peer)
  }

  predicate SessionMoved(c: Contents, base: SessionState) {
    Lookup(c, SessionKey(base.peer)) != Some(SessionRecord(base))
  }

  ghost predicate ShownMoved(versions: seq<Contents>, since: nat, our: Identity, handle: nat) {
    exists base: SessionState, k: nat ::
      Shown(versions, since, our, handle, base) && Within(versions, since, k) && SessionMoved(versions[k], base)
  }

  /** Why a removal fails. */
  ghost predicate RemoveFailed(d: Device, versions: seq<Contents>, since: nat, was: map<nat, Unresolved>, handle: nat,
                               step: Option<Step>, e: MessagingError)
  {
    || Unresolvable(was, handle, e)
    || (step.None? && LoadFailed(versions, since, d.our, handle, e))
    || (e == SessionEstablished && ShownEstablished(versions, since, d.our, handle))
    || (e == PendingOutgoing && ShownPending(versions, since, d.our, handle))
    || ((e == StoreFailure || e == Conflicting(RecordChanged)) && ShownMoved(versions, since, d.our, handle))
    || CommitFailed(step, e)
  }

  /** What a removal finds of the session it loaded. */
  lemma RemoveSessionFails(d: Device, read: seq<Contents>, versions: seq<Contents>, since: nat, was: map<nat, Unresolved>, handle: nat,
                           base: SessionState, e: MessagingError)
    requires read <= versions && Shown(read, since, d.our, handle, base) && |versions| > 0 && since <= |versions|
    requires || (e == SessionEstablished && Established(base))
             || (e == PendingOutgoing && HasOutgoing(versions[|versions| - 1], base.peer))
             || ((e == StoreFailure || e == Conflicting(RecordChanged)) && SessionMoved(versions[|versions| - 1], base))
    ensures RemoveFailed(d, versions, since, was, handle, None, e)
  {
    hide LoadFailed, Shown, Established, HasOutgoing, SessionMoved, CommitFailed;
    ShownLater(read, versions, since, since, d.our, handle, base);
    assert Within(versions, since, |versions| - 1);
  }

  lemma RemoveLoadFails(d: Device, versions: seq<Contents>, since: nat, was: map<nat, Unresolved>, handle: nat, e: MessagingError)
    requires LoadFailed(versions, since, d.our, handle, e) || Unresolvable(was, handle, e)
    ensures RemoveFailed(d, versions, since, was, handle, None, e)
  {
    hide LoadFailed;
  }

  lemma RemoveCommitFails(d: Device, versions: seq<Contents>, since: nat, was: map<nat, Unresolved>, handle: nat, s: Step)
    ensures Repeatable(s.event.fault).Err? ==>
              RemoveFailed(d, versions, since, was, handle, Some(s), Repeatable(s.event.fault).error)
  {
    hide LoadFailed;
  }

  lemma ListedSome(c: Contents, keys: set<StoreKey>, p: Identity)
    requires keys == c.Keys && exists key :: key in keys && key.OutboxKey? && key.peer == p
    ensures HasOutgoing(c, p)
  {
  }

  // ── Recording a handshake ─────────────────────────────────────────────────

  ghost predicate SessionStored(versions: seq<Contents>, since: nat, peer: Identity) {
    exists k: nat :: Within(versions, since, k) && SessionKey(peer) in versions[k]
  }

  /** Anything that keeps the peer's legacy session from being retired. */
  predicate Obliged(d: Device, c: Contents, p: Identity) {
    || HandshakeKey(p) in c || ProvisionalKey(d.handleOf(p)) in c
    || exists key :: key in c && (key.OutboxKey? || key.InboxKey?) && key.peer == p
  }

  ghost predicate ShownObliged(d: Device, versions: seq<Contents>, since: nat, handle: nat) {
    exists base: SessionState, k: nat ::
      Shown(versions, since, d.our, handle, base) && Within(versions, since, k) && Obliged(d, versions[k], base.peer)
  }

  ghost predicate ShownNotLegacy(versions: seq<Contents>, since: nat, our: Identity, handle: nat) {
    exists base: SessionState :: Shown(versions, since, our, handle, base) && !LegacyUnconfirmed(base)
  }

  /** The session, its handle or the prekeys are no longer what was read. */
  predicate RetirementMoved(d: Device, c: Contents, base: SessionState, prekeys: Prekeys) {
    || SessionMoved(c, base) || Lookup(c, HandleKey(d.handleOf(base.peer))) != Some(HandleRecord(base.peer))
    || Lookup(c, PrekeysKey) != Some(PrekeyRecord(prekeys))
  }

  ghost predicate ShownOvertaken(d: Device, versions: seq<Contents>, since: nat, handle: nat, prekeys: Prekeys) {
    exists base: SessionState, k: nat ::
      Shown(versions, since, d.our, handle, base) && Within(versions, since, k) && RetirementMoved(d, versions[k], base, prekeys)
  }

  /** Why recording a handshake fails. */
  ghost predicate RecordFailed(d: Device, versions: seq<Contents>, since: nat, was: map<nat, Unresolved>, peer: Identity,
                               prekeys: Prekeys, step: Option<Step>, e: MessagingError)
  {
    var handle := d.handleOf(peer);
    || CommitFailed(step, e)
    || Unresolvable(was, handle, e)
    || (e == HandleCollision && NamesAnother(versions, since, handle, peer))
    || (step.None? && e != MissingSession && !e.InvalidSession? && LoadFailed(versions, since, d.our, handle, e))
    || (e == SessionExists && SessionStored(versions, since, peer))
    || (e == SessionExists && (exists x: MessagingError ::
          (x == MissingSession || x.InvalidSession?) && SessionFailed(versions, since, d.our, handle, x)))
    || (e == SessionExists && ShownNotLegacy(versions, since, d.our, handle))
    || (e == SessionNotRetirable && ShownObliged(d, versions, since, handle))
    || (e == Conflicting(RecordChanged)
        && (ShownOvertaken(d, versions, since, handle, prekeys) || NamesAnother(versions, since, handle, peer)))
  }

  lemma RecordCommitFails(d: Device, versions: seq<Contents>, since: nat, was: map<nat, Unresolved>, peer: Identity,
                          prekeys: Prekeys, s: Step)
    ensures Repeatable(s.event.fault).Err? ==>
              RecordFailed(d, versions, since, was, peer, prekeys, Some(s), Repeatable(s.event.fault).error)
  {
    hide LoadFailed, NamesAnother, SessionStored, SessionFailed, ShownNotLegacy, ShownObliged, ShownOvertaken;
  }

  lemma RecordLoadFails(d: Device, versions: seq<Contents>, since: nat, was: map<nat, Unresolved>, peer: Identity, prekeys: Prekeys,
                        e: MessagingError)
    requires LoadFailed(versions, since, d.our, d.handleOf(peer), e) || Unresolvable(was, d.handleOf(peer), e)
    ensures RecordFailed(d, versions, since, was, peer, prekeys, None,
                         if e == MissingSession || e.InvalidSession? then SessionExists else e)
  {
    hide HandleFailed, SessionFailed, NamesAnother, SessionStored, ShownNotLegacy, ShownObliged, ShownOvertaken;
    LoadErrors(versions, since, d.our, d.handleOf(peer), e);
  }

  /** What one look at the handle and the session finds in the way. */
  lemma RecordTakenFails(d: Device, versions: seq<Contents>, since: nat, was: map<nat, Unresolved>, peer: Identity,
                         prekeys: Prekeys, e: MessagingError)
    requires |versions| > 0 && since <= |versions|
    requires var (c, handle) := (versions[|versions| - 1], d.handleOf(peer));
             var found := Lookup(c, HandleKey(handle));
             || (e == SessionExists && SessionKey(peer) in c)
             || (e == HandleCollision && found.Some? && found.value.HandleRecord? && found.value.peer != peer)
             || HandleError(c, handle) == Some(e)
    ensures RecordFailed(d, versions, since, was, peer, prekeys, None, e)
  {
    var (k, handle) := (|versions| - 1, d.handleOf(peer));
    assert Within(versions, since, k);
    if HandleError(versions[k], handle) == Some(e) {
      HandleFails(versions, since, handle, k, e);
    } else if e == HandleCollision {
      IsNamed(versions, since, handle, versions[k][HandleKey(handle)].peer, k);
    }
    hide HandleFailed, Named, SessionFailed, ShownNotLegacy, ShownObliged, ShownOvertaken;
  }

  /** What a retirement finds of the session it loaded. */
  lemma RecordSessionFails(d: Device, read: seq<Contents>, versions: seq<Contents>, since: nat, was: map<nat, Unresolved>,
                           peer: Identity, prekeys: Prekeys, base: SessionState, e: MessagingError)
    requires read <= versions && Shown(read, since, d.our, d.handleOf(peer), base) && |versions| > 0 && since <= |versions|
    requires || (e == SessionExists && !LegacyUnconfirmed(base))
             || (e == SessionNotRetirable && Obliged(d, versions[|versions| - 1], base.peer))
             || (e == Conflicting(RecordChanged) && RetirementMoved(d, versions[|versions| - 1], base, prekeys))
    ensures RecordFailed(d, versions, since, was, peer, prekeys, None, e)
  {
    hide LoadFailed, Shown, LegacyUnconfirmed, Obliged, RetirementMoved, CommitFailed, SessionFailed, NamesAnother, SessionStored;
    ShownLater(read, versions, since, since, d.our, d.handleOf(peer), base);
    assert Within(versions, since, |versions| - 1);
  }

  lemma RecordAnotherFails(d: Device, read: seq<Contents>, versions: seq<Contents>, since: nat, was: map<nat, Unresolved>,
                           peer: Identity, prekeys: Prekeys, base: SessionState)
    requires read <= versions && Shown(read, since, d.our, d.handleOf(peer), base) && base.peer != peer
    ensures RecordFailed(d, versions, since, was, peer, prekeys, None, Conflicting(RecordChanged))
  {
    ShownLater(read, versions, since, since, d.our, d.handleOf(peer), base);
    hide Named, LoadFailed, ShownNotLegacy, ShownObliged, ShownOvertaken, SessionFailed;
  }

  lemma ListedObliged(d: Device, c: Contents, keys: set<StoreKey>, p: Identity)
    requires keys == c.Keys && exists key :: key in keys && (key.OutboxKey? || key.InboxKey?) && key.peer == p
    ensures Obliged(d, c, p)
  {
  }

  lemma MovedRetirement(d: Device, c: Contents, base: SessionState, prekeys: Prekeys)
    ensures Lookup(c, SessionKey(base.peer)) != Some(SessionRecord(base)) ==> RetirementMoved(d, c, base, prekeys)
    ensures Lookup(c, HandleKey(d.handleOf(base.peer))) != Some(HandleRecord(base.peer)) ==> RetirementMoved(d, c, base, prekeys)
    ensures Lookup(c, PrekeysKey) != Some(PrekeyRecord(prekeys)) ==> RetirementMoved(d, c, base, prekeys)
    ensures HandshakeKey(base.peer) in c || ProvisionalKey(d.handleOf(base.peer)) in c ==> Obliged(d, c, base.peer)
  {
  }

  lemma RecordFailedLater(d: Device, versions: seq<Contents>, since: nat, least: nat, was: map<nat, Unresolved>, peer: Identity,
                          prekeys: Prekeys, step: Option<Step>, e: MessagingError)
    requires least <= since && RecordFailed(d, versions, since, was, peer, prekeys, step, e)
    ensures RecordFailed(d, versions, least, was, peer, prekeys, step, e)
  {
    hide LoadFailed, NamesAnother, SessionFailed, Shown, LegacyUnconfirmed, Obliged, RetirementMoved, CommitFailed;
    var handle := d.handleOf(peer);
    WithinSince(versions, since, least);
    if NamesAnother(versions, since, handle, peer) {
      NamesAnotherLater(versions, versions, since, least, handle, peer);
    }
    if LoadFailed(versions, since, d.our, handle, e) {
      LoadFailedLater(versions, versions, since, least, d.our, handle, e);
    }
    forall x | SessionFailed(versions, since, d.our, handle, x)
      ensures SessionFailed(versions, least, d.our, handle, x)
    {
      SessionFailedLater(versions, versions, since, least, d.our, handle, x);
    }
    forall base | Shown(versions, since, d.our, handle, base)
      ensures Shown(versions, least, d.our, handle, base)
    {
      ShownLater(versions, versions, since, least, d.our, handle, base);
    }
  }

  // ── Recovery ──────────────────────────────────────────────────────────────

  ghost predicate ArtifactUnreadable(versions: seq<Contents>, since: nat, artifacts: seq<StoreKey>) {
    exists i: nat, k: nat :: i < |artifacts| && Within(versions, since, k) && Lookup(versions[k], artifacts[i]) == Some(Unreadable)
  }

  /** One look at the store did not show the legacy session retired. */
  ghost predicate NotRetired(versions: seq<Contents>, since: nat, u: Unresolved, handle: nat) {
    u.stagedOnLegacy.None?
    || exists k: nat :: Within(versions, since, k) && !RetiredSince(versions[k], handle, u.stagedOnLegacy.value, u.artifacts)
  }

  /** Why a recovery fails. */
  ghost predicate RecoverFailed(d: Device, versions: seq<Contents>, since: nat, u: Unresolved, handle: nat, e: MessagingError) {
    || (e == StoreFailure && ArtifactUnreadable(versions, since, u.artifacts))
    || (LoadFailed(versions, since, d.our, handle, e)
        && (e == NoSession ==> !u.createsSession && NotRetired(versions, since, u, handle)))
  }

  /** The generation a recovery reports is that of the session stored. */
  ghost predicate StoredAt(versions: seq<Contents>, since: nat, our: Identity, handle: nat, generation: U64) {
    || (exists base: SessionState :: Shown(versions, since, our, handle, base) && base.generation == generation)
    || (generation == 0 && HandleFailed(versions, since, handle, NoSession))
  }

  lemma StoredIs(versions: seq<Contents>, since: nat, least: nat, our: Identity, handle: nat, base: SessionState)
    requires least <= since && Shown(versions, since, our, handle, base)
    ensures StoredAt(versions, least, our, handle, base.generation)
  {
    hide Shown, HandleFailed;
    ShownLater(versions, versions, since, least, our, handle, base);
  }

  lemma RecoverLoadFails(d: Device, versions: seq<Contents>, later: seq<Contents>, since: nat, least: nat, u: Unresolved, handle: nat,
                         e: MessagingError)
    requires versions <= later && least <= since && LoadFailed(versions, since, d.our, handle, e)
    requires e == NoSession ==> !u.createsSession && NotRetired(later, least, u, handle)
    ensures RecoverFailed(d, later, least, u, handle, e)
  {
    hide LoadFailed, NotRetired;
    LoadFailedLater(versions, later, since, least, d.our, handle, e);
  }

  lemma LegacyGone(versions: seq<Contents>, since: nat, u: Unresolved, handle: nat)
    requires |versions| > 0 && since <= |versions|
    requires u.stagedOnLegacy.Some? ==> !RetiredSince(versions[|versions| - 1], handle, u.stagedOnLegacy.value, u.artifacts)
    ensures NotRetired(versions, since, u, handle)
  {
    hide RetiredSince;
    assert Within(versions, since, |versions| - 1);
  }

  lemma NothingStored(versions: seq<Contents>, later: seq<Contents>, since: nat, least: nat, our: Identity, handle: nat)
    requires versions <= later && least <= since && LoadFailed(versions, since, our, handle, NoSession)
    ensures StoredAt(later, least, our, handle, 0)
  {
    hide HandleFailed, SessionFailed, Shown;
    LoadErrors(versions, since, our, handle, NoSession);
    HandleFailedLater(versions, later, since, least, handle, NoSession);
  }

  // ── Listing ───────────────────────────────────────────────────────────────

  /** What reading one listed row answers, if no message. */
  function InboxRowError(c: Contents, p: Identity, id: MessageId): Option<MessagingError> {
    match Lookup(c, InboxKey(p, id))
    case None => Some(StoreFailure)
    case Some(Unreadable) => Some(StoreFailure)
    case Some(InboxRecord(_)) => None
    case Some(_) => Some(InvalidRecord)
  }

  function OutboxRowError(c: Contents, p: Identity, id: MessageId): Option<MessagingError> {
    match Lookup(c, OutboxKey(p, id))
    case None => Some(StoreFailure)
    case Some(Unreadable) => Some(StoreFailure)
    case Some(record) => if DecodesOutbox(record) then None else Some(InvalidRecord)
  }

  /** Why a listing fails: the handle, or a row that was listed and could not be
      read when its turn came. */
  ghost predicate InboxListFailed(versions: seq<Contents>, since: nat, handle: nat, e: MessagingError) {
    || HandleFailed(versions, since, handle, e)
    || exists p: Identity, id: MessageId, j: nat, k: nat ::
         Named(versions, since, handle, p) && Within(versions, since, j) && InboxKey(p, id) in versions[j]
         && j <= k && Within(versions, since, k) && InboxRowError(versions[k], p, id) == Some(e)
  }

  ghost predicate OutboxListFailed(versions: seq<Contents>, since: nat, handle: nat, e: MessagingError) {
    || HandleFailed(versions, since, handle, e)
    || exists p: Identity, id: MessageId, j: nat, k: nat ::
         Named(versions, since, handle, p) && Within(versions, since, j) && OutboxKey(p, id) in versions[j]
         && j <= k && Within(versions, since, k) && OutboxRowError(versions[k], p, id) == Some(e)
  }

  lemma ListHandleFails(versions: seq<Contents>, since: nat, handle: nat, k: nat, e: MessagingError)
    requires Within(versions, since, k) && HandleError(versions[k], handle) == Some(e)
    ensures InboxListFailed(versions, since, handle, e) && OutboxListFailed(versions, since, handle, e)
  {
    HandleFails(versions, since, handle, k, e);
  }

  lemma InboxRowFails(versions: seq<Contents>, since: nat, handle: nat, p: Identity, h: nat, id: MessageId, j: nat, e: MessagingError)
    requires Within(versions, since, h) && Lookup(versions[h], HandleKey(handle)) == Some(HandleRecord(p))
    requires Within(versions, since, j) && InboxKey(p, id) in versions[j]
    requires InboxRowError(versions[|versions| - 1], p, id) == Some(e)
    ensures InboxListFailed(versions, since, handle, e)
  {
    hide InboxRowError, Named, HandleFailed;
    IsNamed(versions, since, handle, p, h);
    assert Within(versions, since, |versions| - 1);
  }

  lemma OutboxRowFails(versions: seq<Contents>, since: nat, handle: nat, p: Identity, h: nat, id: MessageId, j: nat, e: MessagingError)
    requires Within(versions, since, h) && Lookup(versions[h], HandleKey(handle)) == Some(HandleRecord(p))
    requires Within(versions, since, j) && OutboxKey(p, id) in versions[j]
    requires OutboxRowError(versions[|versions| - 1], p, id) == Some(e)
    ensures OutboxListFailed(versions, since, handle, e)
  {
    hide OutboxRowError, Named, HandleFailed;
    IsNamed(versions, since, handle, p, h);
    assert Within(versions, since, |versions| - 1);
  }

  // ── Creating ──────────────────────────────────────────────────────────────

  /** Why a creation fails. */
  ghost predicate CreateFailed(d: Device, versions: seq<Contents>, since: nat, peer: Identity, ephemeral: DhKey, step: Step,
                               e: MessagingError)
  {
    || CommitFailed(Some(step), e)
    || (Overtaken(d, ephemeral, versions, Some(step))
        && (|| e == SessionExists || e == InconsistentStore
            || (e == HandleCollision && NamesAnother(versions, since, d.handleOf(peer), peer))
            || HandleFailed(versions, since, d.handleOf(peer), e)))
  }

  /** What a creation's commit found. */
  lemma CreationReports(d: Device, versions: seq<Contents>, since: nat, step: Step, committed: Result<(), OpenError>)
    requires step.event.tx.Create? && |versions| >= 2 && step.at == |versions| - 2
    requires Formed(d, step.event.tx.ephemeral, step.event.tx)
    requires OpenedWhen(Fires(d, step.event.tx.ephemeral, versions[step.at], step.event.tx), step.event.fault, (), committed)
    ensures var (tx, fault) := (step.event.tx, step.event.fault);
            var fires := Fires(d, tx.ephemeral, versions[step.at], tx);
            && (committed.Ok? <==> fires && fault.NoFault?)
            && (committed == Err(OpenOutcomeUnknown) <==> fires && (fault.CommitStored? || fault.CommitLost?))
            && (committed.Err? ==>
                  var e := if committed.error.OpenOutcomeUnknown? then UnknownOutcome(0)
                           else if committed.error.OpenSideConflict? then InconsistentStore else KeptNothing;
                  if committed.error.AlreadyExists? || committed.error.OpenSideConflict?
                  then Overtaken(d, tx.ephemeral, versions, Some(step))
                       && CreateFailed(d, versions, since, tx.peer, tx.ephemeral, step, InconsistentStore)
                  else CreateFailed(d, versions, since, tx.peer, tx.ephemeral, step, e))
  {
    hide Fires, HandleFailed, NamesAnother;
  }

  /** The slot was taken: what one more look at the handle says. */
  lemma CreateTakenFails(d: Device, read: seq<Contents>, versions: seq<Contents>, since: nat, peer: Identity, ephemeral: DhKey,
                         step: Step, e: MessagingError)
    requires read <= versions && Overtaken(d, ephemeral, read, Some(step)) && |versions| > 0 && since <= |versions|
    requires var found := Lookup(versions[|versions| - 1], HandleKey(d.handleOf(peer)));
             || e == SessionExists
             || HandleError(versions[|versions| - 1], d.handleOf(peer)) == Some(e)
             || (e == HandleCollision && found.Some? && found.value.HandleRecord? && found.value.peer != peer)
    ensures CreateFailed(d, versions, since, peer, ephemeral, step, e)
  {
    OvertakenLater(d, ephemeral, read, versions, Some(step));
    var (k, handle) := (|versions| - 1, d.handleOf(peer));
    assert Within(versions, since, k);
    if HandleError(versions[k], handle) == Some(e) {
      HandleFails(versions, since, handle, k, e);
    } else if e == HandleCollision {
      IsNamed(versions, since, handle, versions[k][HandleKey(handle)].peer, k);
    }
    hide Overtaken, CommitFailed, HandleFailed, Named;
  }

  // ── What holds of fewer versions holds of more ────────────────────────────

  lemma NamedLater(versions: seq<Contents>, later: seq<Contents>, since: nat, least: nat, handle: nat, p: Identity)
    requires versions <= later && least <= since && Named(versions, since, handle, p)
    ensures Named(later, least, handle, p)
  {
    var k: nat :| Within(versions, since, k) && Lookup(versions[k], HandleKey(handle)) == Some(HandleRecord(p));
    assert Within(later, least, k) && Lookup(later[k], HandleKey(handle)) == Some(HandleRecord(p));
  }

  lemma HandleFailedLater(versions: seq<Contents>, later: seq<Contents>, since: nat, least: nat, handle: nat, e: MessagingError)
    requires versions <= later && least <= since && HandleFailed(versions, since, handle, e)
    ensures HandleFailed(later, least, handle, e)
  {
    hide HandleError;
    var k: nat :| Within(versions, since, k) && HandleError(versions[k], handle) == Some(e);
    assert Within(later, least, k) && HandleError(later[k], handle) == Some(e);
  }

  lemma SessionFailedLater(versions: seq<Contents>, later: seq<Contents>, since: nat, least: nat, our: Identity, handle: nat,
                           e: MessagingError)
    requires versions <= later && least <= since && SessionFailed(versions, since, our, handle, e)
    ensures SessionFailed(later, least, our, handle, e)
  {
    hide SessionLoadError, Named;
    var p: Identity, k: nat :| Named(versions, since, handle, p) && Within(versions, since, k)
      && SessionLoadError(versions[k], our, p) == Some(e);
    NamedLater(versions, later, since, least, handle, p);
    assert Within(later, least, k) && SessionLoadError(later[k], our, p) == Some(e);
  }

  lemma LoadFailedLater(versions: seq<Contents>, later: seq<Contents>, since: nat, least: nat, our: Identity, handle: nat,
                        e: MessagingError)
    requires versions <= later && least <= since && LoadFailed(versions, since, our, handle, e)
    ensures LoadFailed(later, least, our, handle, e)
  {
    hide HandleFailed, SessionFailed;
    if HandleFailed(versions, since, handle, e) {
      HandleFailedLater(versions, later, since, least, handle, e);
    } else {
      SessionFailedLater(versions, later, since, least, our, handle, e);
    }
  }

  /** Which errors loading a session can answer with. */
  lemma LoadErrors(versions: seq<Contents>, since: nat, our: Identity, handle: nat, e: MessagingError)
    ensures HandleFailed(versions, since, handle, e) ==> e.NoSession? || e.StoreFailure? || e.InvalidRecord?
    ensures SessionFailed(versions, since, our, handle, e) ==> e.MissingSession? || e.StoreFailure? || e.InvalidSession?
  {
  }

  lemma ShownLater(versions: seq<Contents>, later: seq<Contents>, since: nat, least: nat, our: Identity, handle: nat, base: SessionState)
    requires versions <= later && least <= since && Shown(versions, since, our, handle, base)
    ensures Shown(later, least, our, handle, base)
  {
    hide Storable, Named;
    NamedLater(versions, later, since, least, handle, base.peer);
    var k: nat :| Within(versions, since, k) && Lookup(versions[k], SessionKey(base.peer)) == Some(SessionRecord(base));
    assert Within(later, least, k) && Lookup(later[k], SessionKey(base.peer)) == Some(SessionRecord(base));
  }

  lemma PriorFailedLater(versions: seq<Contents>, later: seq<Contents>, since: nat, least: nat, handle: nat, client: ClientId,
                         e: MessagingError)
    requires versions <= later && least <= since && PriorFailed(versions, since, handle, client, e)
    ensures PriorFailed(later, least, handle, client, e)
  {
    hide PriorError, Named;
    var p: Identity, k: nat :| Named(versions, since, handle, p) && Within(versions, since, k) && PriorError(versions[k], p,
        client) == Some(e);
    NamedLater(versions, later, since, least, handle, p);
    assert Within(later, least, k) && PriorError(later[k], p, client) == Some(e);
  }

  lemma DuplicateFailedLater(versions: seq<Contents>, later: seq<Contents>, since: nat, least: nat, handle: nat, id: MessageId,
                             e: MessagingError)
    requires versions <= later && least <= since && DuplicateFailed(versions, since, handle, id, e)
    ensures DuplicateFailed(later, least, handle, id, e)
  {
    hide DuplicateError, Named;
    var p: Identity, k: nat :| Named(versions, since, handle, p) && Within(versions, since, k) && e in DuplicateError(versions[k], p, id);
    NamedLater(versions, later, since, least, handle, p);
    assert Within(later, least, k) && e in DuplicateError(later[k], p, id);
  }

  lemma OvertakenLater(d: Device, next: nat, versions: seq<Contents>, later: seq<Contents>, step: Option<Step>)
    requires versions <= later && Overtaken(d, next, versions, step)
    ensures Overtaken(d, next, later, step)
  {
    hide Formed, Fires;
  }

  lemma SendFailedLater(d: Device, versions: seq<Contents>, later: seq<Contents>, since: nat, least: nat, was: map<nat, Unresolved>,
                        handle: nat, client: ClientId, step: Option<Step>, e: MessagingError)
    requires versions <= later && least <= since && SendFailed(d, versions, since, was, handle, client, step, e)
    ensures SendFailed(d, later, least, was, handle, client, step, e)
  {
    hide HandleFailed, SessionFailed, PriorFailed, Shown, Overtaken, CommitFailed, CannotEncrypt;
    if HandleFailed(versions, since, handle, e) {
      HandleFailedLater(versions, later, since, least, handle, e);
    }
    if SessionFailed(versions, since, d.our, handle, e) {
      SessionFailedLater(versions, later, since, least, d.our, handle, e);
    }
    if PriorFailed(versions, since, handle, client, e) {
      PriorFailedLater(versions, later, since, least, handle, client, e);
    }
    if Overtaken(d, 0, versions, step) {
      OvertakenLater(d, 0, versions, later, step);
    }
    if e.ExhaustedGenerations? {
      var base: SessionState :| Shown(versions, since, d.our, handle, base) && base.generation == U64_MAX;
      ShownLater(versions, later, since, least, d.our, handle, base);
    }
    if e.RatchetFailure? {
      var base: SessionState :| Shown(versions, since, d.our, handle, base) && CannotEncrypt(base);
      ShownLater(versions, later, since, least, d.our, handle, base);
    }
  }

  lemma ReceiveFailedLater(d: Device, versions: seq<Contents>, later: seq<Contents>, since: nat, least: nat, was: map<nat, Unresolved>,
                           handle: nat, wire: Wire<Payload>, newDh: DhKey, step: Option<Step>, e: MessagingError)
    requires versions <= later && least <= since && ReceiveFailed(d, versions, since, was, handle, wire, newDh, step, e)
    ensures ReceiveFailed(d, later, least, was, handle, wire, newDh, step, e)
  {
    hide HandleFailed, SessionFailed, DuplicateFailed, Shown, Overtaken, CommitFailed, CannotDecrypt;
    if HandleFailed(versions, since, handle, e) {
      HandleFailedLater(versions, later, since, least, handle, e);
    }
    if SessionFailed(versions, since, d.our, handle, e) {
      SessionFailedLater(versions, later, since, least, d.our, handle, e);
    }
    if DuplicateFailed(versions, since, handle, wire, e) {
      DuplicateFailedLater(versions, later, since, least, handle, wire, e);
    }
    if Overtaken(d, newDh, versions, step) {
      OvertakenLater(d, newDh, versions, later, step);
    }
    if e.ExhaustedGenerations? {
      var base: SessionState :| Shown(versions, since, d.our, handle, base) && base.generation == U64_MAX;
      ShownLater(versions, later, since, least, d.our, handle, base);
    }
    if e.RatchetFailure? {
      var base: SessionState :| Shown(versions, since, d.our, handle, base) && WellFormed(base.ratchet)
        && CannotDecrypt(base, wire, newDh, e.staging);
      ShownLater(versions, later, since, least, d.our, handle, base);
    }
  }

  lemma PrekeysHeldLater(versions: seq<Contents>, later: seq<Contents>, since: nat, least: nat, prekeys: Prekeys)
    requires versions <= later && least <= since && PrekeysHeld(versions, since, prekeys)
    ensures PrekeysHeld(later, least, prekeys)
  {
    var k: nat :| Within(versions, since, k) && Lookup(versions[k], PrekeysKey) == Some(PrekeyRecord(prekeys));
    assert Within(later, least, k) && Lookup(later[k], PrekeysKey) == Some(PrekeyRecord(prekeys));
  }

  lemma NoPrekeysLater(versions: seq<Contents>, later: seq<Contents>, since: nat, least: nat)
    requires versions <= later && least <= since && NoPrekeys(versions, since)
    ensures NoPrekeys(later, least)
  {
    var k: nat :| Within(versions, since, k) && (PrekeysKey !in versions[k] || !versions[k][PrekeysKey].PrekeyRecord?);
    assert Within(later, least, k) && (PrekeysKey !in later[k] || !later[k][PrekeysKey].PrekeyRecord?);
  }

  lemma UnansweredLater(versions: seq<Contents>, later: seq<Contents>, since: nat, least: nat,
                        handshake: InitiatorHandshake, x: PrekeyRefusal)
    requires versions <= later && least <= since && Unanswered(versions, since, handshake, x)
    ensures Unanswered(later, least, handshake, x)
  {
    hide PrekeysHeld, CheckAnswerable;
    var prekeys: Prekeys :| PrekeysHeld(versions, since, prekeys) && CheckAnswerable(prekeys, handshake) == Some(x);
    PrekeysHeldLater(versions, later, since, least, prekeys);
  }

  lemma UnanswerableLater(versions: seq<Contents>, later: seq<Contents>, since: nat, least: nat, handshake: InitiatorHandshake)
    requires versions <= later && least <= since
    ensures Unanswerable(versions, since, handshake) ==> Unanswerable(later, least, handshake)
  {
    hide Unanswered;
    if Unanswerable(versions, since, handshake) {
      var x: PrekeyRefusal :| Unanswered(versions, since, handshake, x);
      UnansweredLater(versions, later, since, least, handshake, x);
    }
  }

  lemma CandidateRefusesLater(d: Device, versions: seq<Contents>, later: seq<Contents>, since: nat, least: nat,
                              handshake: InitiatorHandshake, wire: Wire<Payload>, newDh: DhKey, e: StageError)
    requires versions <= later && least <= since && CandidateRefuses(d, versions, since, handshake, wire, newDh, e)
    ensures CandidateRefuses(d, later, least, handshake, wire, newDh, e)
  {
    hide PrekeysHeld, CheckAnswerable, CannotDecrypt;
    var prekeys: Prekeys :|
      PrekeysHeld(versions, since, prekeys) && CheckAnswerable(prekeys, handshake).None?
      && CannotDecrypt(Candidate(d.our, handshake, prekeys), wire, newDh, e);
    PrekeysHeldLater(versions, later, since, least, prekeys);
  }

  lemma PrekeysSpentLater(versions: seq<Contents>, later: seq<Contents>, since: nat, least: nat)
    requires versions <= later && least <= since && PrekeysSpent(versions, since)
    ensures PrekeysSpent(later, least)
  {
    hide PrekeysHeld, PrekeySpent;
    var prekeys: Prekeys, k: nat :| PrekeysHeld(versions, since, prekeys) && Within(versions, since, k)
      && PrekeySpent(versions[k], prekeys);
    PrekeysHeldLater(versions, later, since, least, prekeys);
    assert Within(later, least, k) && PrekeySpent(later[k], prekeys);
  }

  lemma TakenFailedLater(d: Device, versions: seq<Contents>, later: seq<Contents>, since: nat, least: nat, was: map<nat,
                         Unresolved>, handle: nat,
                         wire: Wire<Payload>, newDh: DhKey, receipt: Option<Step>, e: MessagingError)
    requires versions <= later && least <= since && TakenFailed(d, versions, since, was, handle, wire, newDh, receipt, e)
    ensures TakenFailed(d, later, least, was, handle, wire, newDh, receipt, e)
  {
    hide SlotTaken, ReceiveFailed, HandleFailed;
    if SlotTaken(versions, since, handle) && ReceiveFailed(d, versions, since, was, handle, wire, newDh, receipt, e) {
      SlotTakenLater(versions, later, since, least, handle);
      ReceiveFailedLater(d, versions, later, since, least, was, handle, wire, newDh, receipt, e);
    } else {
      HandleFailedLater(versions, later, since, least, handle, e);
    }
  }

  lemma EarlyFailedLater(d: Device, versions: seq<Contents>, later: seq<Contents>, since: nat, least: nat, peer: Identity,
                         handshake: InitiatorHandshake, wire: Wire<Payload>, newDh: DhKey, e: MessagingError)
    requires versions <= later && least <= since
    ensures NoPrekeys(versions, since) ==> NoPrekeys(later, least)
    ensures e.PrekeyRefused? && Unanswered(versions, since, handshake, e.refusal)
            && HandleFailed(versions, since, d.handleOf(peer), NoSession) ==>
              Unanswered(later, least, handshake, e.refusal) && HandleFailed(later, least, d.handleOf(peer), NoSession)
    ensures e.RatchetFailure? && CandidateRefuses(d, versions, since, handshake, wire, newDh, e.staging) ==>
              CandidateRefuses(d, later, least, handshake, wire, newDh, e.staging)
  {
    hide NoPrekeys, Unanswered, HandleFailed, CandidateRefuses;
    if NoPrekeys(versions, since) {
      NoPrekeysLater(versions, later, since, least);
    }
    if HandleFailed(versions, since, d.handleOf(peer), NoSession) {
      HandleFailedLater(versions, later, since, least, d.handleOf(peer), NoSession);
    }
    if e.PrekeyRefused? && Unanswered(versions, since, handshake, e.refusal) {
      UnansweredLater(versions, later, since, least, handshake, e.refusal);
    }
    if e.RatchetFailure? && CandidateRefuses(d, versions, since, handshake, wire, newDh, e.staging) {
      CandidateRefusesLater(d, versions, later, since, least, handshake, wire, newDh, e.staging);
    }
  }

  lemma AcceptFailedLater(d: Device, versions: seq<Contents>, later: seq<Contents>, since: nat, least: nat,
                          was: map<nat, Unresolved>, peer: Identity, handshake: InitiatorHandshake, wire: Wire<Payload>,
                          newDh: DhKey, attempt: Option<Step>, receipt: Option<Step>, e: MessagingError)
    requires versions <= later && least <= since && AcceptFailed(d, versions, since, was, peer, handshake, wire, newDh,
        attempt, receipt, e)
    ensures AcceptFailed(d, later, least, was, peer, handshake, wire, newDh, attempt, receipt, e)
  {
    hide NoPrekeys, Unanswered, Unanswerable, HandleFailed, CandidateRefuses, Overtaken, PrekeysSpent, CommitFailed, TakenFailed,
         InsteadFailed;
    var handle := d.handleOf(peer);
    if attempt.None? && Unanswerable(versions, since, handshake) && TakenFailed(d, versions, since, was, handle, wire,
        newDh, receipt, e) {
      UnanswerableLater(versions, later, since, least, handshake);
      TakenFailedLater(d, versions, later, since, least, was, handle, wire, newDh, receipt, e);
    } else if Overtaken(d, newDh, versions, attempt) {
      OvertakenLater(d, newDh, versions, later, attempt);
      if InsteadFailed(d, versions, since, was, peer, wire, newDh, receipt, e) {
        InsteadFailedLater(d, versions, later, since, least, was, peer, wire, newDh, receipt, e);
      } else if PrekeysSpent(versions, since) {
        PrekeysSpentLater(versions, later, since, least);
      }
    }
    EarlyFailedLater(d, versions, later, since, least, peer, handshake, wire, newDh, e);
  }

  /** A session that can be stored obeys the structural rules, and its counters
      are below their bounds. */
  lemma StorableExactly(s: SessionState)
    ensures Storable(s) <==>
              && Structural(s.ratchet) && s.ad == ExpectedAd(s.role, s.our, s.peer)
              && s.ratchet.ns < 0xFFFF_FFFF && s.ratchet.nr <= 0xFFFF_FFFF - 1001
  {
    if Structural(s.ratchet) {
      ResumableExactly(s.ratchet);
    }
  }
}

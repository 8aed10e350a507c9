/** What the calls of `Messenger` report: the transaction each performs as a step
    of a run, what its commit leaves unresolved, and what an answer means. */
module MessagingReports {
  import opened Prelude
  import opened RatchetFields
  import opened SymbolicKeys
  import opened RatchetModel
  import opened Staging
  import opened StoreRecords
  import opened ConditionalWrites
  import opened Storage
  import opened DurableSessions
  import opened MessengerModel
  import opened MessengerInvariant
  import opened MessengerRuns
  import opened MessengerGuarantees
  import opened MessengerRecovery
  import opened MessengerBatches

  datatype MessagingError =
    | NoSession
    | SessionExists
    | HandleCollision
    | MissingSession
    | InvalidSession(session: SessionError)
    | InvalidRecord
    | InconsistentStore
    | RatchetFailure(staging: StageError)
    | ExhaustedGenerations
    | Conflicting(conflict: Conflict)
    | ExtraConflict(index: nat, extra: Conflict)
    | SideWriteRefused(side: SideWriteError)
    | StoreFailure
    | KeptNothing
    | RepeatableOutcomeUnknown
    | UnknownOutcome(attempted: U64)
    | StillUnresolved(attempted: U64)
    | UnknownMessage
    | PrekeysUnavailable
    | InvalidHandshake
    | PrekeyRefused(refusal: PrekeyRefusal)
    | InvalidClientMessageId
    | SessionEstablished
    | PendingOutgoing
    | SessionNotRetirable

  datatype SendOutcome = Sent(message: OutgoingMessage) | Repeated(status: SendStatus)

  datatype Received = Accepted(message: IncomingMessage) | Duplicate(id: MessageId, undelivered: Option<IncomingMessage>)

  datatype Recovery = Recovery(attempted: U64, stored: U64, artifactCommitted: bool)

  /** The transaction a call performed, at the version it found. */
  datatype Step = Step(at: nat, event: Event)

  /** The call's transaction is a step of a run: formed, read for, and applied to
      the version it found, which is no older than the call. The methods take
      `next` to be 0: that the names of the keys they draw are fresh is not theirs
      to show, and is what a run assumes of its random numbers. */
  ghost predicate Took(d: Device, next: nat, before: seq<Contents>, after: seq<Contents>, s: Step) {
    && |before| <= s.at + 1 && s.at + 2 == |after|
    && Formed(d, next, s.event.tx) && Reads(after, s.at, s.event)
    && after[s.at + 1] == After(d, next, after[s.at], s.event.tx, s.event.fault)
  }

  ghost predicate TookWithin(d: Device, next: nat, before: seq<Contents>, after: seq<Contents>, s: Step) {
    s.at + 2 <= |after| && Took(d, next, before, after[..s.at + 2], s)
  }

  /** How a session transition's commit is reported. */
  ghost predicate Reported<T>(fires: bool, fault: Fault, released: T, attempted: U64, r: Result<T, MessagingError>) {
    match fault
    case FailsBefore => r == Err(KeptNothing)
    case NoFault => if fires then r == Ok(released) else r.Err? && (r.error.Conflicting? || r.error.InconsistentStore?)
    case _ => if fires then r == Err(UnknownOutcome(attempted)) else r.Err? && (r.error.Conflicting? || r.error.InconsistentStore?)
  }

  lemma DecodedIsStorable(record: Record, our: Identity, peer: Identity)
    requires DecodeSession(record, our, peer).Ok?
    ensures var s := DecodeSession(record, our, peer).value;
            Storable(s) && record == SessionRecord(s) && s.our == our && s.peer == peer
  {
  }

  function StagingFailure(e: StagingError): MessagingError {
    match e
    case Refused(error) => RatchetFailure(error)
    case GenerationExhausted => ExhaustedGenerations
    case _ => InconsistentStore
  }

  /** How a commit that did not release its output is reported. */
  function NotReleased(e: CommitError): MessagingError {
    match e
    case CommitConflict(c) => Conflicting(c)
    case SideConflict(_, c) => Conflicting(c)
    case CommitNotCommitted => KeptNothing
    case CommitSideWrite(refused) => SideWriteRefused(refused)
    case _ => InconsistentStore
  }

  /** A transition's commit, as its caller sees it. */
  function Settle<X, T>(committed: Result<X, CommitError>, released: T, attempted: U64): Result<T, MessagingError> {
    match committed
    case Ok(_) => Ok(released)
    case Err(CommitOutcomeUnknown) => Err(UnknownOutcome(attempted))
    case Err(e) => Err(NotReleased(e))
  }

  predicate LeftUnknown<X>(committed: Result<X, CommitError>) {
    committed.Err? && committed.error.CommitOutcomeUnknown?
  }

  lemma SettleReports<X, T>(c: Contents, writes: seq<Write>, fault: Fault, output: X, released: T, attempted: U64)
    ensures var committed := Report(WriteResult(c, writes, fault), output);
            && Reported(FirstConflict(c, writes).None?, fault, released, attempted, Settle(committed, released, attempted))
            && (LeftUnknown(committed) <==> FirstConflict(c, writes).None? && (fault.CommitStored? || fault.CommitLost?))
  {
  }

  /** How a transaction that is not a session transition is reported: an error
      from `COMMIT` leaves its outcome unknown, and it can be repeated. */
  function Repeatable(fault: Fault): Result<bool, MessagingError> {
    match fault
    case NoFault => Ok(true)
    case FailsBefore => Err(KeptNothing)
    case _ => Err(RepeatableOutcomeUnknown)
  }

  function AsRepeatable(committed: Result<(), CommitFailure>): Result<bool, MessagingError> {
    match committed
    case Ok(_) => Ok(true)
    case Err(CommitRefused) => Err(KeptNothing)
    case Err(CommitUnknown) => Err(RepeatableOutcomeUnknown)
  }

  /** Where a send that encrypted nothing found its answer. */
  datatype PriorRead = PriorRead(peer: Identity, handleRead: nat, at: nat)

  predicate ReportsPrior(versions: seq<Contents>, handle: nat, client: ClientId, prior: PriorRead, outcome: SendOutcome) {
    && prior.handleRead <= prior.at < |versions|
    && Lookup(versions[prior.handleRead], HandleKey(handle)) == Some(HandleRecord(prior.peer))
    && outcome == Repeated(Status(versions[prior.at], prior.peer, client))
    && !outcome.status.NotSent? && !outcome.status.Broken?
  }

  lemma SendFormed(d: Device, handle: nat, index: Identity, base: SessionState, client: ClientId, plaintext: Payload,
                   nonce: nat, e: Encrypted<Payload>)
    requires Storable(base) && base.our == d.our && 1 <= |client| <= MAX_CLIENT_MESSAGE_ID_LEN
    requires base.generation < U64_MAX && StageEncrypt(base.ratchet, plaintext, base.ad, nonce) == Ok(e)
    ensures Formed(d, 0, Tx.Send(handle, index, base, client, plaintext, nonce))
    ensures StagedSend(base, plaintext, nonce) == Some(Closed(Successor(base, e.state), Wire(e.header, e.cipher)))
  {
  }

  /** The entry an unknown outcome leaves, if the outcome is unknown. */
  function Remember<X>(was: map<nat, Unresolved>, handle: nat, committed: Result<X, CommitError>, u: Unresolved): map<nat, Unresolved> {
    if LeftUnknown(committed) then was[handle := u] else was
  }

  /** What a send that reached its commit reports and leaves. */
  ghost predicate SendDone(d: Device, was: map<nat, Unresolved>, now: map<nat, Unresolved>, found: Contents, e: Event,
                           r: Result<SendOutcome, MessagingError>)
    requires e.tx.Send? && Formed(d, 0, e.tx)
  {
    var tx := e.tx;
    var staged := StagedSend(tx.base, tx.plaintext, tx.nonce).value;
    var fires := Fires(d, 0, found, tx);
    && Reported(fires, e.fault, Sent(OutgoingMessage(staged.wire, tx.client, staged.next.generation, staged.wire)),
                staged.next.generation, r)
    && now == if fires && (e.fault.CommitStored? || e.fault.CommitLost?) then was[tx.handle := UnresolvedSend(tx)] else was
  }

  lemma SendSettles<X>(d: Device, was: map<nat, Unresolved>, found: Contents, e: Event, output: X)
    requires e.tx.Send? && Formed(d, 0, e.tx)
    ensures var tx := e.tx;
            var staged := StagedSend(tx.base, tx.plaintext, tx.nonce).value;
            var m := OutgoingMessage(staged.wire, tx.client, staged.next.generation, staged.wire);
            var writes := [TransitionWrite(tx.base, staged.next)] + AsWrites(SendSide(tx.index, m));
            var committed := Report(WriteResult(found, writes, e.fault), output);
            var u := Unresolved(m.generation, [SendIdKey(tx.index, tx.client)], false, None);
            && DistinctWrites(writes)
            && AfterWrite(found, writes, e.fault) == After(d, 0, found, tx, e.fault)
            && SendDone(d, was, Remember(was, tx.handle, committed, u), found, e, Settle(committed, Sent(m), m.generation))
  {
    var tx := e.tx;
    var staged := StagedSend(tx.base, tx.plaintext, tx.nonce).value;
    var m := OutgoingMessage(staged.wire, tx.client, staged.next.generation, staged.wire);
    var writes := [TransitionWrite(tx.base, staged.next)] + AsWrites(SendSide(tx.index, m));
    assert staged.next.generation == tx.base.generation + 1;
    hide StagedSend, Fires, After, AfterWrite, FirstConflict, DistinctWrites, AsWrites, WriteResult, Report, Reported;
    SendBatch(d, 0, found, tx, e.fault);
    SettleReports(found, writes, e.fault, output, Sent(m), m.generation);
  }

  /** What a receive that reached its commit reports and leaves; a commit that
      found the message accepted meanwhile reports the duplicate it then reads. */
  ghost predicate ReceiveDone(d: Device, next: nat, was: map<nat, Unresolved>, now: map<nat, Unresolved>, handle: nat,
                              versions: seq<Contents>, found: Contents, e: Event, r: Result<Received, MessagingError>)
    requires e.tx.Receive? && Formed(d, next, e.tx)
  {
    var tx := e.tx;
    var staged := StagedReceive(tx.base, tx.wire, tx.newDh).value;
    var fires := Fires(d, next, found, tx);
    && (fires || e.fault.FailsBefore? ==>
          Reported(fires, e.fault, Accepted(IncomingMessage(tx.wire, staged.next.generation, staged.plaintext)),
                   staged.next.generation, r))
    && (!fires && !e.fault.FailsBefore? && r.Ok? ==> ReadAsDuplicate(versions, tx.base.peer, tx.wire, r.value))
    && now == if fires && (e.fault.CommitStored? || e.fault.CommitLost?) then was[handle := UnresolvedReceive(tx)] else was
  }

  /** `received` reports a record some version holds. */
  ghost predicate ReadAsDuplicate(versions: seq<Contents>, p: Identity, id: MessageId, received: Received) {
    && received.Duplicate? && received.id == id
    && exists k :: 0 <= k < |versions| &&
         (match received.undelivered
          case Some(m) => Lookup(versions[k], InboxKey(p, id)) == Some(InboxRecord(m)) && m.id == id
          case None => Lookup(versions[k], SeenKey(p, id)) == Some(SeenRecord(id)))
  }

  /** The handle named `p` at some version. */
  ghost predicate HandleShowed(versions: seq<Contents>, handle: nat, p: Identity) {
    exists k :: 0 <= k < |versions| && Lookup(versions[k], HandleKey(handle)) == Some(HandleRecord(p))
  }

  ghost predicate HeldUndelivered(versions: seq<Contents>, p: Identity, m: IncomingMessage) {
    exists k :: 0 <= k < |versions| && Lookup(versions[k], InboxKey(p, m.id)) == Some(InboxRecord(m))
  }

  /** What a successful answer to `wire` means: the peer's messages hold it. */
  ghost predicate AnsweredFor(versions: seq<Contents>, p: Identity, wire: Wire<Payload>, received: Received) {
    match received
    case Accepted(m) => m.id == wire && HeldUndelivered(versions, p, m)
    case Duplicate(_, _) => ReadAsDuplicate(versions, p, wire, received)
  }

  ghost predicate Answered(versions: seq<Contents>, handle: nat, wire: Wire<Payload>, r: Result<Received, MessagingError>) {
    r.Ok? ==> exists p :: HandleShowed(versions, handle, p) && AnsweredFor(versions, p, wire, r.value)
  }

  lemma ReceiveAnswers(d: Device, next: nat, was: map<nat, Unresolved>, now: map<nat, Unresolved>, handle: nat,
                       versions: seq<Contents>, at: nat, e: Event, r: Result<Received, MessagingError>)
    requires e.tx.Receive? && Formed(d, next, e.tx) && at + 1 < |versions|
    requires versions[at + 1] == After(d, next, versions[at], e.tx, e.fault)
    requires ReceiveDone(d, next, was, now, handle, versions, versions[at], e, r)
    requires HandleShowed(versions, handle, e.tx.base.peer)
    ensures Answered(versions, handle, e.tx.wire, r)
  {
    var tx := e.tx;
    hide HandleShowed, StagedReceive;
    if r.Ok? && r.value.Accepted? {
      assert Lookup(versions[at + 1], InboxKey(tx.base.peer, tx.wire)) == Some(InboxRecord(r.value.message));
    }
  }

  lemma AcceptAnswers(d: Device, was: map<nat, Unresolved>, now: map<nat, Unresolved>, versions: seq<Contents>, at: nat, e: Event,
                      r: Result<Received, MessagingError>)
    requires e.tx.Accept? && Formed(d, e.tx.newDh, e.tx) && at + 1 < |versions|
    requires versions[at + 1] == After(d, e.tx.newDh, versions[at], e.tx, e.fault)
    requires AcceptDone(d, was, now, versions[at], e, r)
    requires r.Ok? ==> Fires(d, e.tx.newDh, versions[at], e.tx)
    ensures Answered(versions, d.handleOf(e.tx.peer), e.tx.wire, r)
  {
    var (tx, left) := (e.tx, versions[at + 1]);
    hide StagedReceive, Candidate, CheckAnswerable;
    if r.Ok? {
      assert Lookup(left, HandleKey(d.handleOf(tx.peer))) == Some(HandleRecord(tx.peer));
      assert Lookup(left, InboxKey(tx.peer, tx.wire)) == Some(InboxRecord(r.value.message));
      assert AnsweredFor(versions, tx.peer, tx.wire, r.value);
    }
  }

  lemma ReceiveFormed(d: Device, base: SessionState, wire: Wire<Payload>, newDh: DhKey, o: Decrypted<Payload>)
    requires Storable(base) && base.our == d.our && WellFormed(base.ratchet) && base.generation < U64_MAX
    requires StageDecrypt(base.ratchet, wire.header, wire.cipher, base.ad, newDh) == Ok(o)
    ensures Formed(d, newDh, Tx.Receive(base, wire, newDh))
    ensures StagedReceive(base, wire, newDh) == Some(Opened(Successor(base, o.state), o.plaintext))
  {
  }

  /** A version the call may have read: the one it began with, `since` being the
      number of versions then, or a later one. */
  predicate Within(versions: seq<Contents>, since: nat, k: nat) {
    since <= k + 1 && k < |versions|
  }

  /** What reading whether a message was accepted answers, if it cannot be read. */
  function DuplicateError(c: Contents, p: Identity, id: MessageId): set<MessagingError> {
    (match Lookup(c, InboxKey(p, id))
     case None => {}
     case Some(Unreadable) => {StoreFailure}
     case Some(InboxRecord(m)) => if m.id == id then {} else {InvalidRecord}
     case Some(_) => {InvalidRecord})
    + (match Lookup(c, SeenKey(p, id))
       case None => {}
       case Some(Unreadable) => {StoreFailure}
       case Some(record) => if record == SeenRecord(id) then {} else {InvalidRecord})
  }

  /** What the caller of an overtaken receive gets, if not the duplicate. */
  ghost predicate AnswerFailed(versions: seq<Contents>, since: nat, p: Identity, id: MessageId, e: MessagingError) {
    || e.Conflicting? || e.InconsistentStore?
    || exists k: nat :: Within(versions, since, k) && e in DuplicateError(versions[k], p, id)
  }

  lemma AnswerFailedSince(versions: seq<Contents>, since: nat, least: nat, p: Identity, id: MessageId, e: MessagingError)
    requires least <= since && AnswerFailed(versions, since, p, id, e)
    ensures AnswerFailed(versions, least, p, id, e)
  {
    hide DuplicateError;
    if !e.Conflicting? && !e.InconsistentStore? {
      var k: nat :| Within(versions, since, k) && e in DuplicateError(versions[k], p, id);
      assert Within(versions, least, k);
    }
  }

  /** What the caller of a receive gets for each outcome of its commit. */
  ghost predicate ReceiveAnswer<X>(versions: seq<Contents>, tx: Tx, m: IncomingMessage, committed: Result<X, CommitError>,
                                   r: Result<Received, MessagingError>)
    requires tx.Receive?
  {
    if committed.Err? && committed.error.SideConflict? then
      r.Err? || ReadAsDuplicate(versions, tx.base.peer, tx.wire, r.value)
    else r == Settle(committed, Accepted(m), m.generation)
  }

  lemma ReceiveSettles(d: Device, was: map<nat, Unresolved>, handle: nat, versions: seq<Contents>, found: Contents, e: Event,
                       m: IncomingMessage, committed: Result<Payload, CommitError>, r: Result<Received, MessagingError>)
    requires e.tx.Receive? && Formed(d, e.tx.newDh, e.tx) && InboxCommitted(found, e.tx, e.fault, committed)
    requires var staged := StagedReceive(e.tx.base, e.tx.wire, e.tx.newDh).value;
             m == IncomingMessage(e.tx.wire, staged.next.generation, staged.plaintext)
    requires ReceiveAnswer(versions, e.tx, m, committed, r)
    ensures var u := Unresolved(m.generation, ReceiveArtifacts(e.tx.base.peer, e.tx.wire), false, LegacyPeer(e.tx.base));
            ReceiveDone(d, e.tx.newDh, was, Remember(was, handle, committed, u), handle, versions, found, e, r)
    ensures r.Err? && !Fires(d, e.tx.newDh, found, e.tx) && !e.fault.FailsBefore? ==>
              r.error.Conflicting? || r.error.InconsistentStore? || (committed.Err? && committed.error.SideConflict?)
  {
    var tx := e.tx;
    var staged := StagedReceive(tx.base, tx.wire, tx.newDh).value;
    var writes := [TransitionWrite(tx.base, staged.next)] + AsWrites(ReceiveSide(tx.base.peer, m));
    assert staged.next.generation == tx.base.generation + 1;
    hide StagedReceive, Fires, After, AfterWrite, FirstConflict, DistinctWrites, AsWrites, Formed;
    ReceiveBatch(d, tx.newDh, found, tx, e.fault);
    SettleReports(found, writes, e.fault, staged.plaintext, Accepted(m), m.generation);
  }

  lemma CandidateIsNew(our: Identity, handshake: InitiatorHandshake, prekeys: Prekeys)
    requires handshake.InitiatorHandshake?
    ensures var base := Candidate(our, handshake, prekeys);
            && WellFormed(base.ratchet) && base.generation == 0 && base.our == our && base.peer == handshake.identity
  {
  }

  lemma AcceptFormed(d: Device, peer: Identity, handshake: InitiatorHandshake, prekeys: Prekeys, wire: Wire<Payload>,
                     newDh: DhKey, newOneTime: DhKey, o: Decrypted<Payload>)
    requires handshake.InitiatorHandshake? && handshake.identity == peer && CheckAnswerable(prekeys, handshake).None?
    requires var base := Candidate(d.our, handshake, prekeys);
             StageDecrypt(base.ratchet, wire.header, wire.cipher, base.ad, newDh) == Ok(o)
    requires newDh < newOneTime
    ensures Formed(d, newDh, Tx.Accept(peer, handshake, prekeys, wire, newDh, newOneTime))
    ensures var base := Candidate(d.our, handshake, prekeys);
            StagedReceive(base, wire, newDh) == Some(Opened(Successor(base, o.state), o.plaintext))
  {
  }

  /** What an acceptance's own transaction reports and leaves. */
  ghost predicate AcceptDone(d: Device, was: map<nat, Unresolved>, now: map<nat, Unresolved>, found: Contents, e: Event,
                             r: Result<Received, MessagingError>)
    requires e.tx.Accept? && Formed(d, e.tx.newDh, e.tx)
  {
    var tx := e.tx;
    var staged := StagedReceive(Candidate(d.our, tx.handshake, tx.prekeys), tx.wire, tx.newDh).value;
    var fires := Fires(d, tx.newDh, found, tx);
    && (fires || e.fault.FailsBefore? ==>
          Reported(fires, e.fault, Accepted(IncomingMessage(tx.wire, staged.next.generation, staged.plaintext)), 1, r))
    && now == if fires && (e.fault.CommitStored? || e.fault.CommitLost?)
              then was[d.handleOf(tx.peer) := UnresolvedAccept(tx)] else was
  }

  function SettleOpened(committed: Result<Payload, OpenError>, m: IncomingMessage): Result<Received, MessagingError> {
    match committed
    case Ok(_) => Ok(Accepted(m))
    case Err(OpenOutcomeUnknown) => Err(UnknownOutcome(m.generation))
    case Err(OpenNotCommitted) => Err(KeptNothing)
    case Err(AlreadyExists) => Err(SessionExists)
    case Err(OpenSideConflict(i, conflict)) =>
      Err(if i == 0 then SessionExists else if i < 4 then Conflicting(conflict) else ExtraConflict(i - 4, conflict))
    case Err(_) => Err(InconsistentStore)
  }

  /** The peer's session slot or handle is taken. */
  predicate IsTaken(committed: Result<Payload, OpenError>) {
    committed.Err? && (committed.error.AlreadyExists? || (committed.error.OpenSideConflict? && committed.error.index == 0))
  }

  lemma AcceptSettles(d: Device, was: map<nat, Unresolved>, found: Contents, e: Event, committed: Result<Payload, OpenError>)
    requires e.tx.Accept? && Formed(d, e.tx.newDh, e.tx)
    requires OpenedWhen(Fires(d, e.tx.newDh, found, e.tx), e.fault,
                        StagedReceive(Candidate(d.our, e.tx.handshake, e.tx.prekeys), e.tx.wire, e.tx.newDh).value.plaintext, committed)
    ensures var tx := e.tx;
            var staged := StagedReceive(Candidate(d.our, tx.handshake, tx.prekeys), tx.wire, tx.newDh).value;
            var m := IncomingMessage(tx.wire, staged.next.generation, staged.plaintext);
            var now := if committed.Err? && committed.error.OpenOutcomeUnknown?
                       then was[d.handleOf(tx.peer) := Unresolved(m.generation, ReceiveArtifacts(tx.peer, tx.wire), true, None)]
                       else was;
            && AcceptDone(d, was, now, found, e, SettleOpened(committed, m))
            && (IsTaken(committed) ==> !Fires(d, tx.newDh, found, tx) && !e.fault.FailsBefore? && now == was)
            && (SettleOpened(committed, m).Ok? ==> Fires(d, tx.newDh, found, tx))
            && (!Fires(d, tx.newDh, found, tx) && !e.fault.FailsBefore? && !IsTaken(committed) ==>
                  && committed.Err? && committed.error.OpenSideConflict? && SettleOpened(committed, m).Err?
                  && var error := SettleOpened(committed, m).error;
                     error.Conflicting? || (error.ExtraConflict? && committed.error.index >= 4))
  {
    var tx := e.tx;
    var staged := StagedReceive(Candidate(d.our, tx.handshake, tx.prekeys), tx.wire, tx.newDh).value;
    assert staged.next.generation == 1;
    hide StagedReceive, Fires, Formed, Candidate;
  }

  /** An acceptance that did not fire leaves its caller free to answer. */
  lemma NotFired(d: Device, was: map<nat, Unresolved>, found: Contents, e: Event)
    requires e.tx.Accept? && Formed(d, e.tx.newDh, e.tx) && !Fires(d, e.tx.newDh, found, e.tx) && !e.fault.FailsBefore?
    ensures forall r :: AcceptDone(d, was, was, found, e, r)
  {
  }

  /** A retirement whose checks all held is a step, and it fires. */
  lemma RetireTook(d: Device, before: seq<Contents>, found: seq<Contents>, e: Event)
    requires before <= found && |found| > 0 && e.tx.Retire?
    requires Storable(e.tx.base) && e.tx.base.our == d.our && LegacyUnconfirmed(e.tx.base)
    requires e.loaded <= e.listed < |found| && NoPending(found[e.listed], e.tx.base.peer)
    requires Lookup(found[e.loaded], SessionKey(e.tx.base.peer)) == Some(SessionRecord(e.tx.base))
    requires var (c, p, h) := (found[|found| - 1], e.tx.base.peer, d.handleOf(e.tx.base.peer));
             && Lookup(c, SessionKey(p)) == Some(SessionRecord(e.tx.base)) && Lookup(c, HandleKey(h)) == Some(HandleRecord(p))
             && HandshakeKey(p) !in c && ProvisionalKey(h) !in c && Lookup(c, PrekeysKey) == Some(PrekeyRecord(e.tx.prekeys))
    ensures var (c, p, h) := (found[|found| - 1], e.tx.base.peer, d.handleOf(e.tx.base.peer));
            var left := (c - {SessionKey(p), HandleKey(h)})[ProvisionalKey(h) := ProvisionalRecord(p, e.tx.handshake)];
            && Formed(d, 0, e.tx) && Fires(d, 0, c, e.tx)
            && Took(d, 0, before, found + [if Kept(e.fault) then left else c], Step(|found| - 1, e))
  {
    hide Storable, LegacyUnconfirmed, NoPending;
  }

  lemma AnsweredDuplicate(versions: seq<Contents>, handle: nat, p: Identity, wire: Wire<Payload>, received: Received)
    requires HandleShowed(versions, handle, p) && ReadAsDuplicate(versions, p, wire, received)
    ensures received.Duplicate? && Answered(versions, handle, wire, Ok(received))
  {
    assert AnsweredFor(versions, p, wire, received);
  }

  /** When the instance read its session is no part of what it reports. */
  lemma SendDoneAnytime(d: Device, was: map<nat, Unresolved>, now: map<nat, Unresolved>, found: Contents, e: Event, e': Event,
                        r: Result<SendOutcome, MessagingError>)
    requires e.tx.Send? && Formed(d, 0, e.tx) && e'.tx == e.tx && e'.fault == e.fault && SendDone(d, was, now, found, e, r)
    ensures SendDone(d, was, now, found, e', r)
  {
    hide Formed, Fires, StagedSend, Reported;
  }

  lemma ReceiveDoneAnytime(d: Device, next: nat, was: map<nat, Unresolved>, now: map<nat, Unresolved>, handle: nat,
                           versions: seq<Contents>, found: Contents, e: Event, e': Event, r: Result<Received, MessagingError>)
    requires e.tx.Receive? && Formed(d, next, e.tx) && e'.tx == e.tx && e'.fault == e.fault
    requires ReceiveDone(d, next, was, now, handle, versions, found, e, r)
    ensures ReceiveDone(d, next, was, now, handle, versions, found, e', r)
  {
    hide Formed, Fires, StagedReceive, Reported, ReadAsDuplicate;
  }

  lemma SendTook(d: Device, before: seq<Contents>, versions: seq<Contents>, e: Event)
    requires e.tx.Send? && Formed(d, 0, e.tx) && |versions| >= 2 && |before| <= |versions| - 1
    requires e.listed <= |versions| - 2 && e.loaded <= |versions| - 2
    requires Lookup(versions[e.listed], HandleKey(e.tx.handle)) == Some(HandleRecord(e.tx.index))
    requires Lookup(versions[e.loaded], HandleKey(e.tx.handle)) == Some(HandleRecord(e.tx.base.peer))
    requires versions[|versions| - 1] == After(d, 0, versions[|versions| - 2], e.tx, e.fault)
    ensures Took(d, 0, before, versions, Step(|versions| - 2, e))
  {
    hide Formed, After;
  }

  lemma ReceiveTook(d: Device, next: nat, before: seq<Contents>, versions: seq<Contents>, at: nat, e: Event)
    requires e.tx.Receive? && Formed(d, next, e.tx) && |before| <= at + 1 && at + 1 < |versions|
    requires versions[at + 1] == After(d, next, versions[at], e.tx, e.fault)
    ensures TookWithin(d, next, before, versions, Step(at, e))
  {
    hide Formed, After;
  }

  /** A step taken after a later read was taken after an earlier one. */
  lemma TookSince(d: Device, next: nat, earlier: seq<Contents>, before: seq<Contents>, after: seq<Contents>, s: Step)
    requires earlier <= before && Took(d, next, before, after, s)
    ensures Took(d, next, earlier, after, s)
  {
    hide Formed, After, Reads;
  }

  lemma ListedNone(c: Contents, keys: set<StoreKey>, p: Identity)
    requires keys == c.Keys && !exists key :: key in keys && key.OutboxKey? && key.peer == p
    ensures NoPending(c, p)
  {
    forall id
      ensures OutboxKey(p, id) !in c
    {
      assert OutboxKey(p, id) in c ==> OutboxKey(p, id) in keys;
    }
  }

  function ReceiveArtifacts(p: Identity, id: MessageId): seq<StoreKey> {
    [InboxKey(p, id), SeenKey(p, id)]
  }

  function LegacyPeer(base: SessionState): Option<Identity> {
    if LegacyUnconfirmed(base) then Some(base.peer) else None
  }
}

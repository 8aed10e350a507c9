/** The batches `messaging.rs` hands to the store, and that committing one is
    exactly the transaction of the same name. */
module MessengerBatches {
  import opened Prelude
  import opened RatchetFields
  import opened SymbolicKeys
  import opened RatchetModel
  import opened Staging
  import opened StoreRecords
  import opened ConditionalWrites
  import opened Storage
  import opened DurableSessions
  import opened MessengerModel

  lemma ApplyFew(c: Contents, w: seq<Write>)
    requires 1 <= |w| <= 6
    ensures ApplyAll(c, w[..1]) == ApplyOne(c, w[0])
    ensures forall n :: 1 <= n < |w| ==> ApplyAll(c, w[..n + 1]) == ApplyOne(ApplyAll(c, w[..n]), w[n])
    ensures w[..|w|] == w
  {
    assert w[..1] == [w[0]];
    forall n | 1 <= n < |w|
      ensures ApplyAll(c, w[..n + 1]) == ApplyOne(ApplyAll(c, w[..n]), w[n])
    {
      assert w[..n + 1][..n] == w[..n];
    }
  }

  function SendSide(index: Identity, m: OutgoingMessage): (s: seq<SideWrite>)
    ensures |s| == 2
  {
    [SideWrite(OutboxKey(index, m.id), None, SidePut(OutboxRecord(m))),
     SideWrite(SendIdKey(index, m.client), None, SidePut(SentRecord(m.id)))]
  }

  function ReceiveSide(p: Identity, m: IncomingMessage): (s: seq<SideWrite>)
    ensures |s| == 2
  {
    [SideWrite(InboxKey(p, m.id), None, SidePut(InboxRecord(m))),
     SideWrite(SeenKey(p, m.id), None, SideCheck)]
  }

  function CreateSide(handle: nat, p: Identity, handshake: InitiatorHandshake): (s: seq<SideWrite>)
    ensures |s| == 2
  {
    [SideWrite(HandleKey(handle), None, SidePut(HandleRecord(p))),
     SideWrite(HandshakeKey(p), None, SidePut(HandshakeRecord(handshake)))]
  }

  function AcceptSide(handle: nat, p: Identity, handshake: InitiatorHandshake, m: IncomingMessage): (s: seq<SideWrite>)
    ensures |s| == 4
  {
    [SideWrite(HandleKey(handle), None, SidePut(HandleRecord(p))),
     SideWrite(ProvisionalKey(handle), Some(ProvisionalRecord(p, handshake)), SideDelete),
     SideWrite(InboxKey(p, m.id), None, SidePut(InboxRecord(m))),
     SideWrite(SeenKey(p, m.id), None, SideCheck)]
  }

  /** The rotation of the prekey record past the one-time prekey just used. */
  function Rotation(prekeys: Prekeys, newOneTime: DhKey): (s: seq<SideWrite>)
    ensures |s| <= 1
  {
    if prekeys.oneTime.None? then []
    else [SideWrite(PrekeysKey, Some(PrekeyRecord(prekeys)), SidePut(PrekeyRecord(Prekeys(prekeys.signed, Some(newOneTime)))))]
  }

  lemma HoldsWhen(c: Contents, w: Write)
    ensures w.expected.Absent? ==> (Holds(c, w).None? <==> w.key !in c)
    ensures w.expected.Exactly? && !w.expected.record.Unreadable? ==>
              (Holds(c, w).None? <==> Lookup(c, w.key) == Some(w.expected.record))
  {
  }

  lemma TransitionHolds(c: Contents, base: SessionState, next: SessionState)
    requires Storable(base)
    ensures Holds(c, TransitionWrite(base, next)).None? <==> Lookup(c, SessionKey(base.peer)) == Some(SessionRecord(base))
  {
    PredecessorIsExact(base, Lookup(c, SessionKey(base.peer)));
  }

  /** A session write with two side writes, spelled out. */
  lemma ThreeWrites(c: Contents, session: Write, side: seq<SideWrite>)
    requires |side| == 2
    ensures var w := [session] + AsWrites(side);
            && w == [session, AsWrite(side[0]), AsWrite(side[1])]
            && (FirstConflict(c, w).None? <==>
                  Holds(c, session).None? && Holds(c, AsWrite(side[0])).None? && Holds(c, AsWrite(side[1])).None?)
            && ApplyAll(c, w) == ApplyOne(ApplyOne(ApplyOne(c, session), AsWrite(side[0])), AsWrite(side[1]))
  {
    hide Holds;
    var w := [session] + AsWrites(side);
    ApplyFew(c, w);
    assert w[0] == session && w[1] == AsWrite(side[0]) && w[2] == AsWrite(side[1]);
  }

  lemma SendBatch(d: Device, next: nat, c: Contents, tx: Tx, fault: Fault)
    requires tx.Send? && Formed(d, next, tx)
    ensures var staged := StagedSend(tx.base, tx.plaintext, tx.nonce).value;
            var m := OutgoingMessage(staged.wire, tx.client, staged.next.generation, staged.wire);
            var writes := [TransitionWrite(tx.base, staged.next)] + AsWrites(SendSide(tx.index, m));
            && DistinctWrites(writes)
            && (FirstConflict(c, writes).None? <==> Fires(d, next, c, tx))
            && AfterWrite(c, writes, fault) == After(d, next, c, tx, fault)
  {
    var staged := StagedSend(tx.base, tx.plaintext, tx.nonce).value;
    var m := OutgoingMessage(staged.wire, tx.client, staged.next.generation, staged.wire);
    var (session, side) := (TransitionWrite(tx.base, staged.next), SendSide(tx.index, m));
    hide Formed, StagedSend, Holds, FirstConflict, ApplyAll, AsWrites;
    TransitionHolds(c, tx.base, staged.next) by { BaseIsStorable(d, next, tx); }
    HoldsWhen(c, AsWrite(side[0]));
    HoldsWhen(c, AsWrite(side[1]));
    ThreeWrites(c, session, side);
  }

  lemma BaseIsStorable(d: Device, next: nat, tx: Tx)
    requires (tx.Send? || tx.Receive?) && Formed(d, next, tx)
    ensures Storable(tx.base)
  {
  }

  lemma ReceiveBatch(d: Device, next: nat, c: Contents, tx: Tx, fault: Fault)
    requires tx.Receive? && Formed(d, next, tx)
    ensures var staged := StagedReceive(tx.base, tx.wire, tx.newDh).value;
            var m := IncomingMessage(tx.wire, staged.next.generation, staged.plaintext);
            var writes := [TransitionWrite(tx.base, staged.next)] + AsWrites(ReceiveSide(tx.base.peer, m));
            && DistinctWrites(writes)
            && (FirstConflict(c, writes).None? <==> Fires(d, next, c, tx))
            && AfterWrite(c, writes, fault) == After(d, next, c, tx, fault)
  {
    var staged := StagedReceive(tx.base, tx.wire, tx.newDh).value;
    var m := IncomingMessage(tx.wire, staged.next.generation, staged.plaintext);
    var (session, side) := (TransitionWrite(tx.base, staged.next), ReceiveSide(tx.base.peer, m));
    hide Formed, StagedReceive, Holds, FirstConflict, ApplyAll, AsWrites;
    TransitionHolds(c, tx.base, staged.next) by { BaseIsStorable(d, next, tx); }
    HoldsWhen(c, AsWrite(side[0]));
    HoldsWhen(c, AsWrite(side[1]));
    ThreeWrites(c, session, side);
  }

  lemma CreateBatch(d: Device, next: nat, c: Contents, tx: Tx, fault: Fault)
    requires tx.Create? && Formed(d, next, tx)
    ensures var s := NewInitiator(d.our, tx.peer, tx.signedPrekey, tx.oneTime, tx.ephemeral, tx.dh);
            var handshake := InitiatorHandshake(d.our, tx.ephemeral, tx.signedPrekey, tx.oneTime);
            var writes := [CreationWrite(s)] + AsWrites(CreateSide(d.handleOf(tx.peer), tx.peer, handshake));
            && EncodeError(s).None? && DistinctWrites(writes)
            && (FirstConflict(c, writes).None? <==> Fires(d, next, c, tx))
            && AfterWrite(c, writes, fault) == After(d, next, c, tx, fault)
  {
    var s := NewInitiator(d.our, tx.peer, tx.signedPrekey, tx.oneTime, tx.ephemeral, tx.dh);
    var side := CreateSide(d.handleOf(tx.peer), tx.peer, InitiatorHandshake(d.our, tx.ephemeral, tx.signedPrekey, tx.oneTime));
    hide Holds, FirstConflict, ApplyAll, AsWrites;
    HoldsWhen(c, CreationWrite(s));
    HoldsWhen(c, AsWrite(side[0]));
    HoldsWhen(c, AsWrite(side[1]));
    ThreeWrites(c, CreationWrite(s), side);
  }

  function AcceptWrites(d: Device, tx: Tx, staged: Opened): seq<Write>
    requires tx.Accept?
  {
    var m := IncomingMessage(tx.wire, staged.next.generation, staged.plaintext);
    var side := AcceptSide(d.handleOf(tx.peer), tx.peer, tx.handshake, m) + Rotation(tx.prekeys, tx.newOneTime);
    [CreationWrite(staged.next)] + AsWrites(side)
  }

  lemma AcceptWritesAre(d: Device, tx: Tx, staged: Opened)
    requires tx.Accept? && staged.next.peer == tx.peer
    ensures var (w, h) := (AcceptWrites(d, tx, staged), d.handleOf(tx.peer));
            && |w| == (if tx.prekeys.oneTime.None? then 5 else 6)
            && w[0] == Write(SessionKey(tx.peer), Absent, Put(SessionRecord(staged.next)))
            && w[1] == Write(HandleKey(h), Absent, Put(HandleRecord(tx.peer)))
            && w[2] == Write(ProvisionalKey(h), Exactly(ProvisionalRecord(tx.peer, tx.handshake)), Delete)
            && w[3] == Write(InboxKey(tx.peer, tx.wire), Absent,
                             Put(InboxRecord(IncomingMessage(tx.wire, staged.next.generation, staged.plaintext))))
            && w[4] == Write(SeenKey(tx.peer, tx.wire), Absent, Check)
            && (tx.prekeys.oneTime.Some? ==>
                  w[5] == Write(PrekeysKey, Exactly(PrekeyRecord(tx.prekeys)),
                                Put(PrekeyRecord(Prekeys(tx.prekeys.signed, Some(tx.newOneTime))))))
  {
    var m := IncomingMessage(tx.wire, staged.next.generation, staged.plaintext);
    var side := AcceptSide(d.handleOf(tx.peer), tx.peer, tx.handshake, m) + Rotation(tx.prekeys, tx.newOneTime);
    var w := AcceptWrites(d, tx, staged);
    assert forall n :: 0 <= n < |side| ==> w[n + 1] == AsWrite(side[n]);
  }

  lemma AcceptApplied(d: Device, next: nat, c: Contents, tx: Tx, staged: Opened)
    requires tx.Accept? && Formed(d, next, tx) && Fires(d, next, c, tx)
    requires staged == StagedReceive(Candidate(d.our, tx.handshake, tx.prekeys), tx.wire, tx.newDh).value
    requires staged.next.peer == tx.peer
    ensures ApplyAll(c, AcceptWrites(d, tx, staged)) == Effect(d, next, c, tx)
  {
    AcceptWritesAre(d, tx, staged);
    ApplyFew(c, AcceptWrites(d, tx, staged));
    hide StagedReceive, Candidate, AcceptWrites, ApplyAll;
  }

  lemma AllHold(c: Contents, w: seq<Write>)
    requires |w| == 5 || |w| == 6
    ensures FirstConflict(c, w).None? <==>
            && Holds(c, w[0]).None? && Holds(c, w[1]).None? && Holds(c, w[2]).None?
            && Holds(c, w[3]).None? && Holds(c, w[4]).None?
            && (|w| == 6 ==> Holds(c, w[5]).None?)
  {
    hide Holds;
  }

  lemma AcceptDistinct(d: Device, tx: Tx, staged: Opened)
    requires tx.Accept? && staged.next.peer == tx.peer
    ensures DistinctWrites(AcceptWrites(d, tx, staged))
  {
    hide AcceptWrites;
    AcceptWritesAre(d, tx, staged);
  }

  lemma AcceptConflicts(d: Device, next: nat, c: Contents, tx: Tx, staged: Opened)
    requires tx.Accept? && Formed(d, next, tx) && staged.next.peer == tx.peer
    ensures FirstConflict(c, AcceptWrites(d, tx, staged)).None? <==> Fires(d, next, c, tx)
  {
    hide Formed, Holds, AcceptWrites, FirstConflict;
    var w := AcceptWrites(d, tx, staged);
    AcceptWritesAre(d, tx, staged);
    AllHold(c, w);
    forall n | 0 <= n < |w|
      ensures w[n].expected.Absent? ==> (Holds(c, w[n]).None? <==> w[n].key !in c)
      ensures w[n].expected.Exactly? && !w[n].expected.record.Unreadable? ==>
                (Holds(c, w[n]).None? <==> Lookup(c, w[n].key) == Some(w[n].expected.record))
    {
      HoldsWhen(c, w[n]);
    }
  }

  lemma AcceptBatch(d: Device, next: nat, c: Contents, tx: Tx, fault: Fault)
    requires tx.Accept? && Formed(d, next, tx)
    ensures var staged := StagedReceive(Candidate(d.our, tx.handshake, tx.prekeys), tx.wire, tx.newDh).value;
            var writes := AcceptWrites(d, tx, staged);
            && staged.next.peer == tx.peer
            && DistinctWrites(writes)
            && (FirstConflict(c, writes).None? <==> Fires(d, next, c, tx))
            && AfterWrite(c, writes, fault) == After(d, next, c, tx, fault)
  {
    var staged := StagedReceive(Candidate(d.our, tx.handshake, tx.prekeys), tx.wire, tx.newDh).value;
    assert staged.next.peer == tx.peer;
    hide StagedReceive, Candidate, AcceptWrites, ApplyAll, Effect, FirstConflict, DistinctWrites;
    AcceptConflicts(d, next, c, tx, staged);
    AcceptDistinct(d, tx, staged);
    if Fires(d, next, c, tx) {
      AcceptApplied(d, next, c, tx, staged);
    }
  }

  /** Commits a staged send: exactly the transaction of that name. */
  method CommitOutbox(d: Device, store: EncryptedStore, session: DurableSession, staged: Staged<(Header, Cipher<Payload>)>,
                      tx: Tx, fault: Fault)
    returns (committed: Result<(Header, Cipher<Payload>), CommitError>)
    requires store.Valid() && session.Valid() && session.CommitBlocked(staged).None? && session.Prepared(staged)
    requires tx.Send? && Formed(d, 0, tx) && tx.base == session.State()
    requires StagedSend(tx.base, tx.plaintext, tx.nonce)
             == Some(Closed(Successor(tx.base, staged.ratchet.State()), Wire(staged.output.0, staged.output.1)))
    modifies store, session
    ensures store.Valid() && old(store.versions) <= store.versions && |store.versions| > |old(store.versions)|
    ensures var (e, found) := (StagedSend(tx.base, tx.plaintext, tx.nonce).value, store.versions[|store.versions| - 2]);
            var m := OutgoingMessage(e.wire, tx.client, e.next.generation, e.wire);
            var writes := [TransitionWrite(tx.base, e.next)] + AsWrites(SendSide(tx.index, m));
            && committed == Report(WriteResult(found, writes, fault), staged.output)
            && store.contents == After(d, 0, found, tx, fault)
  {
    hide Formed, StagedSend, Fires, After, AfterWrite, FirstConflict, WriteResult, Report, DistinctWrites, AsWrites,
         SendSide, TransitionWrite, Storable;
    var id := Wire(staged.output.0, staged.output.1);
    var message := OutgoingMessage(id, tx.client, staged.generation, id);
    ghost var next := StagedSend(tx.base, tx.plaintext, tx.nonce).value.next;
    SendBatch(d, 0, store.contents, tx, fault);
    committed := CommitOver(session, store, staged, SendSide(tx.index, message), fault, tx.base, next);
    SendBatch(d, 0, store.versions[|store.versions| - 2], tx, fault);
  }

  /** `committed` is how the receive's batch ended against `found`. */
  ghost predicate InboxCommitted(found: Contents, tx: Tx, fault: Fault, committed: Result<Payload, CommitError>)
    requires tx.Receive? && StagedReceive(tx.base, tx.wire, tx.newDh).Some?
  {
    var o := StagedReceive(tx.base, tx.wire, tx.newDh).value;
    var m := IncomingMessage(tx.wire, o.next.generation, o.plaintext);
    var writes := [TransitionWrite(tx.base, o.next)] + AsWrites(ReceiveSide(tx.base.peer, m));
    committed == Report(WriteResult(found, writes, fault), o.plaintext)
  }

  /** Commits a staged receive: exactly the transaction of that name. */
  method CommitInbox(d: Device, store: EncryptedStore, session: DurableSession, staged: Staged<Payload>, tx: Tx, fault: Fault)
    returns (committed: Result<Payload, CommitError>)
    requires store.Valid() && session.Valid() && session.CommitBlocked(staged).None? && session.Prepared(staged)
    requires tx.Receive? && Formed(d, tx.newDh, tx) && tx.base == session.State()
    requires StagedReceive(tx.base, tx.wire, tx.newDh)
             == Some(Opened(Successor(tx.base, staged.ratchet.State()), staged.output))
    modifies store, session
    ensures store.Valid() && old(store.versions) <= store.versions && |store.versions| > |old(store.versions)|
    ensures var found := store.versions[|store.versions| - 2];
            InboxCommitted(found, tx, fault, committed) && store.contents == After(d, tx.newDh, found, tx, fault)
  {
    hide Formed, StagedReceive, Fires, After, AfterWrite, FirstConflict, WriteResult, Report, DistinctWrites, AsWrites,
         ReceiveSide, TransitionWrite, Storable;
    var message := IncomingMessage(tx.wire, staged.generation, staged.output);
    ghost var next := StagedReceive(tx.base, tx.wire, tx.newDh).value.next;
    ReceiveBatch(d, tx.newDh, store.contents, tx, fault);
    committed := CommitOver(session, store, staged, ReceiveSide(session.peer, message), fault, tx.base, next);
    ReceiveBatch(d, tx.newDh, store.versions[|store.versions| - 2], tx, fault);
  }

  /** The only ways a promotion or creation can end, and when each does. */
  ghost predicate OpenedWhen<X>(fires: bool, fault: Fault, output: X, r: Result<X, OpenError>) {
    match fault
    case FailsBefore => r == Err(OpenNotCommitted)
    case NoFault => if fires then r == Ok(output) else r.Err? && (r.error.AlreadyExists? || r.error.OpenSideConflict?)
    case _ => if fires then r == Err(OpenOutcomeUnknown) else r.Err? && (r.error.AlreadyExists? || r.error.OpenSideConflict?)
  }

  lemma OpenReports<X>(c: Contents, writes: seq<Write>, fault: Fault, output: X)
    ensures OpenedWhen(FirstConflict(c, writes).None?, fault, output,
                       match WriteResult(c, writes, fault) case Ok(_) => Ok(output) case Err(e) => Err(OpenFailure(e)))
  {
  }

  /** Stores the staged first message's session, handle and inbox record, deletes
      the provisional handshake and rotates the prekeys, in one write. */
  lemma SideConflictAt<X>(c: Contents, writes: seq<Write>, fault: Fault, output: X)
    ensures var r: Result<X, OpenError> := match WriteResult(c, writes,
        fault) case Ok(_) => Ok(output) case Err(e) => Err(OpenFailure(e));
            r.Err? && r.error.OpenSideConflict? ==>
              r.error.index + 1 < |writes| && Holds(c, writes[r.error.index + 1]).Some?
  {
  }

  /** The prekey record the handshake was answered from was replaced since. */
  predicate PrekeySpent(c: Contents, prekeys: Prekeys) {
    prekeys.oneTime.Some? && Lookup(c, PrekeysKey) != Some(PrekeyRecord(prekeys))
  }

  /** A conflict past the acceptance's own records is on the prekeys. */
  lemma RotationConflict(d: Device, c: Contents, tx: Tx, staged: Opened, i: nat)
    requires tx.Accept? && 5 <= i < |AcceptWrites(d, tx, staged)| && Holds(c, AcceptWrites(d, tx, staged)[i]).Some?
    ensures PrekeySpent(c, tx.prekeys)
  {
  }

  method CommitAcceptance(d: Device, store: EncryptedStore, candidate: ProvisionalSession, staged: Staged<Payload>,
                          tx: Tx, fault: Fault)
    returns (committed: Result<Payload, OpenError>)
    requires store.Valid() && candidate.Valid() && candidate.inner.Prepared(staged)
    requires staged.instance == candidate.inner && staged.base == 0
    requires tx.Accept? && Formed(d, tx.newDh, tx) && candidate.inner.State() == Candidate(d.our, tx.handshake, tx.prekeys)
    requires StagedReceive(candidate.inner.State(), tx.wire, tx.newDh)
             == Some(Opened(Successor(candidate.inner.State(), staged.ratchet.State()), staged.output))
    modifies store, candidate.inner
    ensures store.Valid() && old(store.versions) <= store.versions && |store.versions| > |old(store.versions)|
    ensures var found := store.versions[|store.versions| - 2];
            && store.contents == After(d, tx.newDh, found, tx, fault)
            && OpenedWhen(Fires(d, tx.newDh, found, tx), fault, staged.output, committed)
            && (committed.Err? && committed.error.OpenSideConflict? && committed.error.index >= 4 ==> PrekeySpent(found, tx.prekeys))
  {
    hide PrekeySpent, Formed, StagedReceive, Candidate, Fires, After, AfterWrite, FirstConflict, WriteResult, DistinctWrites, AsWrites,
         AcceptSide, Rotation, CreationWrite, OpenFailure, OpenedWhen, CheckAnswerable;
    var m := IncomingMessage(tx.wire, staged.generation, staged.output);
    var side := AcceptSide(d.handleOf(tx.peer), tx.peer, tx.handshake, m) + Rotation(tx.prekeys, tx.newOneTime);
    ghost var first := StagedReceive(candidate.inner.State(), tx.wire, tx.newDh).value;
    ghost var next := first.next;
    ghost var writes := [CreationWrite(next)] + AsWrites(side);
    AcceptBatch(d, tx.newDh, store.contents, tx, fault);
    committed := PromoteOver(candidate, store, staged, side, fault, next);
    ghost var found := store.versions[|store.versions| - 2];
    AcceptBatch(d, tx.newDh, found, tx, fault);
    OpenReports(found, writes, fault, staged.output);
    if committed.Err? && committed.error.OpenSideConflict? && committed.error.index >= 4 {
      SideConflictAt(found, writes, fault, staged.output);
      RotationConflict(d, found, tx, first, committed.error.index + 1);
    }
  }

  /** Stores a new initiator session with its handle and handshake. */
  method CommitCreation(d: Device, store: EncryptedStore, tx: Tx, fault: Fault)
    returns (committed: Result<(), OpenError>)
    requires store.Valid() && tx.Create? && Formed(d, tx.ephemeral, tx)
    modifies store
    ensures store.Valid() && old(store.versions) <= store.versions && |store.versions| > |old(store.versions)|
    ensures var found := store.versions[|store.versions| - 2];
            && store.contents == After(d, tx.ephemeral, found, tx, fault)
            && OpenedWhen(Fires(d, tx.ephemeral, found, tx), fault, (), committed)
  {
    var s := NewInitiator(d.our, tx.peer, tx.signedPrekey, tx.oneTime, tx.ephemeral, tx.dh);
    var side := CreateSide(d.handleOf(tx.peer), tx.peer, InitiatorHandshake(d.our, tx.ephemeral, tx.signedPrekey, tx.oneTime));
    ghost var writes := [CreationWrite(s)] + AsWrites(side);
    CreateBatch(d, tx.ephemeral, store.contents, tx, fault);
    hide Fires, After, AfterWrite, FirstConflict, WriteResult, DistinctWrites, AsWrites, CreateSide, CreationWrite, OpenFailure,
         OpenedWhen, Formed;
    var created := CreateWith(store, s, side, fault);
    ghost var found := store.versions[|store.versions| - 2];
    CreateBatch(d, tx.ephemeral, found, tx, fault);
    OpenReports(found, writes, fault, ());
    committed := match created case Ok(_) => Ok(()) case Err(e) => Err(e);
  }
}

/** `Messenger`: durable messaging over a store other connections also write.
    Each method performs at most one transaction of `MessengerModel`, attempted
    on the strength of its earlier reads, so any number of instances together
    produce the runs of `MessengerRuns`. */
module Messaging {
  import opened Prelude
  import opened RatchetFields
  import opened SymbolicKeys
  import opened RatchetModel
  import opened RatchetSafety
  import opened Staging
  import opened StoreRecords
  import opened ConditionalWrites
  import opened Storage
  import opened DurableSessions
  import opened MessengerModel
  import opened MessengerInvariant
  import opened MessengerRuns
  import opened MessengerGuarantees
  import opened MessengerRecovery
  import opened MessengerBatches
  import opened MessagingReports
  import opened MessengerCauses

  class Messenger {
    const device: Device
    var unresolved: map<nat, Unresolved>

    constructor (device: Device)
      ensures this.device == device && unresolved == map[]
    {
      this.device, unresolved := device, map[];
    }

    function RequireResolved(handle: nat): Option<MessagingError>
      reads this
    {
      if handle in unresolved then Some(StillUnresolved(unresolved[handle].attempted)) else None
    }

    method RequirePeer(store: EncryptedStore, handle: nat) returns (r: Result<Identity, MessagingError>)
      requires store.Valid()
      modifies store
      ensures store.Valid() && old(store.versions) <= store.versions
      ensures match Lookup(store.contents, HandleKey(handle))
              case None => r == Err(NoSession)
              case Some(HandleRecord(p)) => r == Ok(p)
              case Some(_) => r.Err? && r.error != NoSession
      ensures r.Err? ==> HandleError(store.contents, handle) == Some(r.error)
    {
      var record := store.Get(HandleKey(handle));
      match record
      case None => return Err(NoSession);
      case Some(HandleRecord(p)) => return Ok(p);
      case Some(Unreadable) => return Err(StoreFailure);
      case Some(_) => return Err(InvalidRecord);
    }

    /** The session under `handle`: its handle is read first, then its record. */
    method LoadSession(store: EncryptedStore, handle: nat)
      returns (r: Result<DurableSession, MessagingError>, ghost handleRead: nat)
      requires store.Valid()
      modifies store
      ensures store.Valid() && old(store.versions) <= store.versions
      ensures |old(store.versions)| <= handleRead + 1 && handleRead < |store.versions|
      ensures r.Err? && r.error == NoSession <==> HandleKey(handle) !in store.versions[handleRead]
      ensures r.Ok? ==>
                && fresh(r.value) && fresh(r.value.ratchet) && r.value.Valid() && r.value.status == Active
                && var s := r.value.State();
                && s.our == device.our && Storable(s)
                && Lookup(store.versions[handleRead], HandleKey(handle)) == Some(HandleRecord(s.peer))
                && Lookup(store.contents, SessionKey(s.peer)) == Some(SessionRecord(s))
      ensures r.Err? ==> LoadFailed(store.versions, |old(store.versions)|, device.our, handle, r.error)
      ensures r.Ok? ==> Shown(store.versions, |old(store.versions)|, device.our, handle, r.value.State())
    {
      hide Named, HandleFailed, SessionFailed, Shown;
      var peer := RequirePeer(store, handle);
      handleRead := |store.versions| - 1;
      ghost var since := |old(store.versions)|;
      if peer.Err? {
        HandleFails(store.versions, since, handle, handleRead, peer.error);
        return Err(peer.error), handleRead;
      }
      var loaded := Load(store, device.our, peer.value);
      IsNamed(store.versions, since, handle, peer.value, handleRead);
      ghost var k := |store.versions| - 1;
      if SessionLoadError(store.contents, device.our, peer.value).Some? {
        SessionFails(store.versions, since, device.our, handle, peer.value, k,
                     SessionLoadError(store.contents, device.our, peer.value).value);
      }
      match loaded
      case Ok(Some(session)) =>
        DecodedIsStorable(store.contents[SessionKey(peer.value)], device.our, peer.value);
        IsShown(store.versions, since, device.our, handle, session.State(), k);
        return Ok(session), handleRead;
      case Ok(None) => return Err(MissingSession), handleRead;
      case Err(OpenInvalid(e)) => return Err(InvalidSession(e)), handleRead;
      case Err(OpenStore) => return Err(StoreFailure), handleRead;
      case Err(_) => return Err(InconsistentStore), handleRead;
    }

    /** What an earlier send of the same logical message committed: both records
        are read in one transaction. */
    method ReadPriorSend(store: EncryptedStore, peer: Identity, client: ClientId)
      returns (r: Result<Option<SendOutcome>, MessagingError>)
      requires store.Valid()
      modifies store
      ensures store.Valid() && old(store.versions) <= store.versions
      ensures match Status(store.contents, peer, client)
              case NotSent => r == Ok(None)
              case Broken => r.Err?
              case status => r == Ok(Some(Repeated(status)))
      ensures r.Err? ==> PriorError(store.contents, peer, client) == Some(r.error)
    {
      var tx := store.Begin();
      match Lookup(tx, SendIdKey(peer, client))
      case None => return Ok(None);
      case Some(AbandonedRecord(id)) => return Ok(Some(Repeated(Abandoned(id))));
      case Some(SentRecord(id)) =>
        match Lookup(tx, OutboxKey(peer, id)) {
          case None => return Ok(Some(Repeated(Acknowledged(id))));
          case Some(record) =>
            if DecodesOutbox(record) {
              return Ok(Some(Repeated(Pending(record.outgoing))));
            }
            return Err(if record.Unreadable? then StoreFailure else InvalidRecord);
        }
      case Some(Unreadable) => return Err(StoreFailure);
      case Some(_) => return Err(InvalidRecord);
    }

    /** Commits a staged encryption with its outbox and send-id records. */
    method CommitSend(store: EncryptedStore, session: DurableSession, staged: Staged<(Header, Cipher<Payload>)>,
                      tx: Tx, fault: Fault)
      returns (r: Result<SendOutcome, MessagingError>)
      requires store.Valid() && session.Valid() && session.CommitBlocked(staged).None? && session.Prepared(staged)
      requires tx.Send? && Formed(device, 0, tx) && tx.base == session.State()
      requires StagedSend(tx.base, tx.plaintext, tx.nonce)
               == Some(Closed(Successor(tx.base, staged.ratchet.State()), Wire(staged.output.0, staged.output.1)))
      modifies this, store, session
      ensures store.Valid() && old(store.versions) <= store.versions && |store.versions| > |old(store.versions)|
      ensures var found := store.versions[|store.versions| - 2];
              && store.contents == After(device, 0, found, tx, fault)
              && SendDone(device, old(unresolved), unresolved, found, Event(tx, fault, 0, 0), r)
    {
      var id := Wire(staged.output.0, staged.output.1);
      var message := OutgoingMessage(id, tx.client, staged.generation, id);
      hide Formed, StagedSend, After, WriteResult, Report, AsWrites, SendSide, TransitionWrite, Settle, LeftUnknown, SendDone,
           Remember;
      var committed := CommitOutbox(device, store, session, staged, tx, fault);
      SendSettles(device, unresolved, store.versions[|store.versions| - 2], Event(tx, fault, 0, 0), staged.output);
      unresolved := Remember(unresolved, tx.handle, committed,
                             Unresolved(message.generation, [SendIdKey(tx.index, tx.client)], false, None));
      r := Settle(committed, Sent(message), message.generation);
    }

    method EncryptAndCommit(store: EncryptedStore, session: DurableSession, handle: nat, index: Identity,
                            client: ClientId, plaintext: Payload, nonce: nat, fault: Fault)
      returns (r: Result<SendOutcome, MessagingError>, ghost tx: Option<Tx>)
      requires store.Valid() && session.Valid() && session.status == Active
      requires Storable(session.State()) && session.our == device.our && 1 <= |client| <= MAX_CLIENT_MESSAGE_ID_LEN
      modifies this, store, session
      ensures store.Valid() && old(store.versions) <= store.versions
      ensures tx.None? ==> unresolved == old(unresolved) && unchanged(store) && r.Err?
      ensures tx.None? ==>
                var s := old(session.State());
                || (r.error == ExhaustedGenerations && s.generation == U64_MAX)
                || (r.error.RatchetFailure? && CannotEncrypt(s))
      ensures tx.Some? ==>
                && tx.value == Tx.Send(handle, index, old(session.State()), client, plaintext, nonce)
                && Formed(device, 0, tx.value) && |store.versions| > |old(store.versions)|
                && var found := store.versions[|store.versions| - 2];
                && store.contents == After(device, 0, found, tx.value, fault)
                && SendDone(device, old(unresolved), unresolved, found, Event(tx.value, fault, 0, 0), r)
    {
      EncryptStagesExactly(session.State().ratchet, plaintext, session.ad, nonce);
      var staged := session.StageEncrypt(plaintext, nonce);
      if staged.Err? {
        return Err(StagingFailure(staged.error)), None;
      }
      var base := session.State();
      var attempt := Tx.Send(handle, index, base, client, plaintext, nonce);
      tx := Some(attempt);
      SendFormed(device, handle, index, base, client, plaintext, nonce,
                 StageEncrypt(base.ratchet, plaintext, base.ad, nonce).value);
      hide Formed, After, SendDone, StagedSend, Storable;
      r := CommitSend(store, session, staged.value, attempt, fault);
    }

    /** The part of a send that follows once nothing of it was found: `listed` is
        when the handle was read for the index, `since` when the send began. */
    method SendNew(store: EncryptedStore, handle: nat, index: Identity, client: ClientId, plaintext: Payload, nonce: nat,
                   fault: Fault, ghost listed: nat, ghost since: nat)
      returns (r: Result<SendOutcome, MessagingError>, ghost step: Option<Step>)
      requires store.Valid() && 1 <= |client| <= MAX_CLIENT_MESSAGE_ID_LEN && since <= |store.versions|
      requires listed < |store.versions| && Lookup(store.versions[listed], HandleKey(handle)) == Some(HandleRecord(index))
      modifies this, store
      ensures store.Valid() && old(store.versions) <= store.versions
      ensures step.Some? ==>
                var s := step.value;
                && s.event.fault == fault && Took(device, 0, old(store.versions), store.versions, s)
                && s.event.tx.Send? && s.event.tx.handle == handle && s.event.tx.client == client
                && s.event.tx.plaintext == plaintext && s.event.tx.nonce == nonce
                && SendDone(device, old(unresolved), unresolved, store.versions[s.at], s.event, r)
      ensures step.None? ==> unresolved == old(unresolved) && r.Err?
      ensures r.Err? ==> SendFailed(device, store.versions, since, old(unresolved), handle, client, step, r.error)
    {
      hide Formed, Fires, After, Took, Storable, SendDone, SendFailed, Shown, LoadFailed, CannotEncrypt;
      step := None;
      ghost var (before, was) := (store.versions, unresolved);
      var session, loaded := LoadSession(store, handle);
      if session.Err? {
        SendLoadFails(device, store.versions, |before|, since, was, handle, client, session.error);
        return Err(session.error), step;
      }
      ghost var (read, base) := (store.versions, session.value.State());
      ghost var tx;
      r, tx := EncryptAndCommit(store, session.value, handle, index, client, plaintext, nonce, fault);
      if tx.None? {
        SendStagingFails(device, read, store.versions, |before|, since, was, handle, client, base, r.error);
      } else {
        ghost var s := Step(|store.versions| - 2, Event(tx.value, fault, loaded, listed));
        step := Some(s);
        SendTook(device, before, store.versions, s.event);
        SendDoneAnytime(device, was, unresolved, store.versions[s.at], Event(tx.value, fault, 0, 0), s.event, r);
        if r.Err? {
          SendCommitFails(device, store.versions, since, was, unresolved, handle, client, s, r);
        }
      }
    }

    /** Sends the logical message `client`: encrypts and commits at most once. */
    method Send(store: EncryptedStore, handle: nat, client: ClientId, plaintext: Payload, nonce: nat, fault: Fault)
      returns (r: Result<SendOutcome, MessagingError>, ghost step: Option<Step>, ghost prior: PriorRead)
      requires store.Valid()
      modifies this, store
      ensures store.Valid() && old(store.versions) <= store.versions
      ensures step.Some? ==>
                var s := step.value;
                && s.event.fault == fault && Took(device, 0, old(store.versions), store.versions, s)
                && s.event.tx.Send? && s.event.tx.handle == handle && s.event.tx.client == client
                && s.event.tx.plaintext == plaintext && s.event.tx.nonce == nonce
                && SendDone(device, old(unresolved), unresolved, store.versions[s.at], s.event, r)
      ensures step.None? ==> unresolved == old(unresolved)
      ensures step.None? && r.Ok? ==>
                ReportsPrior(store.versions, handle, client, prior, r.value) && |old(store.versions)| <= prior.at + 1
      ensures r.Err? ==>
                SendFailed(device, store.versions, |old(store.versions)|, old(unresolved), handle, client, step, r.error)
      ensures handle in old(unresolved) ==> r.Err? && unchanged(this) && unchanged(store)
    {
      hide Took, Status, SendDone, SendFailed, HandleError, PriorError;
      ghost var before := store.versions;
      step, prior := None, PriorRead(0, 0, 0);
      if !(1 <= |client| <= MAX_CLIENT_MESSAGE_ID_LEN) {
        SendFailsUnread(device, before, |before|, unresolved, handle, client, InvalidClientMessageId);
        return Err(InvalidClientMessageId), step, prior;
      }
      var blocked := RequireResolved(handle);
      if blocked.Some? {
        SendFailsUnread(device, before, |before|, unresolved, handle, client, blocked.value);
        return Err(blocked.value), step, prior;
      }
      var peer := RequirePeer(store, handle);
      ghost var listed := |store.versions| - 1;
      if peer.Err? {
        SendHandleFails(device, store.versions, |before|, unresolved, handle, client, listed, peer.error);
        return Err(peer.error), step, prior;
      }
      var repeated := ReadPriorSend(store, peer.value, client);
      prior := PriorRead(peer.value, listed, |store.versions| - 1);
      if repeated.Err? {
        SendPriorFails(device, store.versions, |before|, unresolved, handle, client, peer.value, listed, repeated.error);
        return Err(repeated.error), step, prior;
      }
      if repeated.value.Some? {
        return Ok(repeated.value.value), step, prior;
      }
      ghost var mid := store.versions;
      r, step := SendNew(store, handle, peer.value, client, plaintext, nonce, fault, listed, |before|);
      if step.Some? {
        TookSince(device, 0, before, mid, store.versions, step.value);
      }
    }

    /** Whether the message was accepted before: its inbox record is read first,
        then its seen record. */
    method ReadDuplicate(store: EncryptedStore, p: Identity, id: MessageId)
      returns (r: Result<Option<Received>, MessagingError>)
      requires store.Valid()
      modifies store
      ensures store.Valid() && old(store.versions) <= store.versions
      ensures r.Ok? && r.value.Some? ==> ReadAsDuplicate(store.versions, p, id, r.value.value)
      ensures r == Ok(None) ==> SeenKey(p, id) !in store.contents
      ensures r.Err? ==>
                exists k: nat :: Within(store.versions, |old(store.versions)|, k) && r.error in DuplicateError(store.versions[k], p, id)
    {
      var inbox := store.Get(InboxKey(p, id));
      ghost var k := |store.versions| - 1;
      assert Within(store.versions, |old(store.versions)|, k) && store.versions[k] == store.contents;
      match inbox {
        case Some(InboxRecord(m)) =>
          if m.id != id {
            return Err(InvalidRecord);
          }
          assert Lookup(store.versions[k], InboxKey(p, id)) == Some(InboxRecord(m));
          return Ok(Some(Duplicate(id, Some(m))));
        case Some(Unreadable) => return Err(StoreFailure);
        case Some(_) => return Err(InvalidRecord);
        case None =>
      }
      var seen := store.Get(SeenKey(p, id));
      k := |store.versions| - 1;
      assert Within(store.versions, |old(store.versions)|, k) && store.versions[k] == store.contents;
      if seen.None? {
        return Ok(None);
      }
      if seen.value != SeenRecord(id) {
        return Err(if seen.value.Unreadable? then StoreFailure else InvalidRecord);
      }
      assert Lookup(store.versions[k], SeenKey(p, id)) == Some(SeenRecord(id));
      return Ok(Some(Duplicate(id, None)));
    }

    /** A conflict on a message record means another instance accepted the
        message in between: it is then a duplicate. */
    method AnswerReceive<X>(store: EncryptedStore, tx: Tx, message: IncomingMessage, committed: Result<X, CommitError>)
      returns (r: Result<Received, MessagingError>)
      requires store.Valid() && tx.Receive?
      modifies store
      ensures store.Valid() && old(store.versions) <= store.versions
      ensures ReceiveAnswer(store.versions, tx, message, committed, r)
      ensures r.Err? && committed.Err? && committed.error.SideConflict? ==>
                AnswerFailed(store.versions, |old(store.versions)|, tx.base.peer, tx.wire, r.error)
    {
      if committed.Err? && committed.error.SideConflict? {
        if !committed.error.conflict.RecordExists? {
          return Err(Conflicting(committed.error.conflict));
        }
        var duplicate := ReadDuplicate(store, tx.base.peer, tx.wire);
        if duplicate.Err? {
          return Err(duplicate.error);
        }
        return if duplicate.value.None? then Err(InconsistentStore) else Ok(duplicate.value.value);
      }
      return Settle(committed, Accepted(message), message.generation);
    }

    /** After a receive's commit: an unknown outcome is remembered, and the caller
        answered. */
    method FinishReceive(store: EncryptedStore, handle: nat, tx: Tx, message: IncomingMessage, fault: Fault,
                         committed: Result<Payload, CommitError>)
      returns (r: Result<Received, MessagingError>)
      requires store.Valid() && tx.Receive? && Formed(device, tx.newDh, tx) && |store.versions| >= 2
      requires InboxCommitted(store.versions[|store.versions| - 2], tx, fault, committed)
      requires var staged := StagedReceive(tx.base, tx.wire, tx.newDh).value;
               message == IncomingMessage(tx.wire, staged.next.generation, staged.plaintext)
      modifies this, store
      ensures store.Valid() && old(store.versions) <= store.versions
      ensures ReceiveDone(device, tx.newDh, old(unresolved), unresolved, handle, store.versions,
                          old(store.versions[|store.versions| - 2]), Event(tx, fault, 0, 0), r)
      ensures r.Err? && !Fires(device, tx.newDh, old(store.versions[|store.versions| - 2]), tx) && !fault.FailsBefore? ==>
                AnswerFailed(store.versions, |old(store.versions)|, tx.base.peer, tx.wire, r.error)
    {
      hide Fires, DuplicateError, StagedReceive, LeftUnknown, ReceiveDone, ReceiveAnswer, ReceiveArtifacts, LegacyPeer,
           Remember, Formed, InboxCommitted;
      ghost var (found, before) := (store.versions[|store.versions| - 2], unresolved);
      unresolved := Remember(unresolved, handle, committed,
                             Unresolved(message.generation, ReceiveArtifacts(tx.base.peer, tx.wire), false, LegacyPeer(tx.base)));
      r := AnswerReceive(store, tx, message, committed);
      ReceiveSettles(device, before, handle, store.versions, found, Event(tx, fault, 0, 0), message, committed, r);
    }

    /** Commits a staged decryption with its undelivered inbox record. */
    method CommitReceive(store: EncryptedStore, session: DurableSession, staged: Staged<Payload>, handle: nat, tx: Tx, fault: Fault)
      returns (r: Result<Received, MessagingError>, ghost at: nat)
      requires store.Valid() && session.Valid() && session.CommitBlocked(staged).None? && session.Prepared(staged)
      requires tx.Receive? && Formed(device, tx.newDh, tx) && tx.base == session.State()
      requires StagedReceive(tx.base, tx.wire, tx.newDh)
             == Some(Opened(Successor(tx.base, staged.ratchet.State()), staged.output))
      modifies this, store, session
      ensures store.Valid() && old(store.versions) <= store.versions
      ensures |old(store.versions)| <= at + 1 && at + 1 < |store.versions|
      ensures store.versions[at + 1] == After(device, tx.newDh, store.versions[at], tx, fault)
      ensures ReceiveDone(device, tx.newDh, old(unresolved), unresolved, handle, store.versions, store.versions[at],
                          Event(tx, fault, 0, 0), r)
      ensures r.Err? && !Fires(device, tx.newDh, store.versions[at], tx) && !fault.FailsBefore? ==>
                AnswerFailed(store.versions, |old(store.versions)|, tx.base.peer, tx.wire, r.error)
    {
      hide Fires, AnswerFailed, StagedReceive, After, ReceiveDone, InboxCommitted, Formed;
      var message := IncomingMessage(tx.wire, staged.generation, staged.output);
      var committed := CommitInbox(device, store, session, staged, tx, fault);
      at := |store.versions| - 2;
      ghost var mid := store.versions;
      r := FinishReceive(store, handle, tx, message, fault, committed);
      if r.Err? && !Fires(device, tx.newDh, store.versions[at], tx) && !fault.FailsBefore? {
        AnswerFailedSince(store.versions, |mid|, |old(store.versions)|, tx.base.peer, tx.wire, r.error);
      }
    }

    method DecryptAndCommit(store: EncryptedStore, session: DurableSession, handle: nat, wire: Wire<Payload>,
                            newDh: DhKey, fault: Fault)
      returns (r: Result<Received, MessagingError>, ghost tx: Option<Tx>, ghost at: nat)
      requires store.Valid() && session.Valid() && session.status == Active
      requires Storable(session.State()) && session.our == device.our
      modifies this, store, session
      ensures store.Valid() && old(store.versions) <= store.versions
      ensures tx.None? ==> unresolved == old(unresolved) && unchanged(store) && r.Err?
      ensures tx.Some? ==>
                && tx.value == Tx.Receive(old(session.State()), wire, newDh)
                && Formed(device, newDh, tx.value)
                && |old(store.versions)| <= at + 1 && at + 1 < |store.versions|
                && store.versions[at + 1] == After(device, newDh, store.versions[at], tx.value, fault)
                && ReceiveDone(device, newDh, old(unresolved), unresolved, handle, store.versions, store.versions[at],
                               Event(tx.value, fault, 0, 0), r)
                && (r.Err? && !Fires(device, newDh, store.versions[at], tx.value) && !fault.FailsBefore? ==>
                      AnswerFailed(store.versions, |old(store.versions)|, tx.value.base.peer, wire, r.error))
      ensures tx.None? ==>
                var s := old(session.State());
                || (r.error == ExhaustedGenerations && s.generation == U64_MAX)
                || (r.error.RatchetFailure? && CannotDecrypt(s, wire, newDh, r.error.staging))
    {
      hide AnswerFailed;
      at := 0;
      var staged := session.StageDecrypt(wire, newDh);
      if staged.Err? {
        return Err(StagingFailure(staged.error)), None, at;
      }
      var base := session.State();
      var attempt := Tx.Receive(base, wire, newDh);
      ReceiveFormed(device, base, wire, newDh, StageDecrypt(base.ratchet, wire.header, wire.cipher, base.ad, newDh).value);
      hide Formed, Fires, After, ReceiveDone, StagedReceive, Storable;
      r, at := CommitReceive(store, session, staged.value, handle, attempt, fault);
      tx := Some(attempt);
    }

    /** Receives `wire` on the session under `handle`; a message accepted before
        is a duplicate and does not touch the ratchet. */
    method Receive(store: EncryptedStore, handle: nat, wire: Wire<Payload>, newDh: DhKey, fault: Fault)
      returns (r: Result<Received, MessagingError>, ghost step: Option<Step>)
      requires store.Valid()
      modifies this, store
      ensures store.Valid() && old(store.versions) <= store.versions
      ensures step.Some? ==>
                var s := step.value;
                && TookWithin(device, newDh, old(store.versions), store.versions, s)
                && s.event.fault == fault && s.event.tx.Receive? && s.event.tx.wire == wire && s.event.tx.newDh == newDh
                && ReceiveDone(device, newDh, old(unresolved), unresolved, handle, store.versions, store.versions[s.at],
                               s.event, r)
      ensures step.None? ==> unresolved == old(unresolved) && !(r.Ok? && r.value.Accepted?)
      ensures Answered(store.versions, handle, wire, r)
      ensures step.Some? ==> Named(store.versions, |old(store.versions)|, handle, step.value.event.tx.base.peer)
      ensures r.Err? ==>
                ReceiveFailed(device, store.versions, |old(store.versions)|, old(unresolved), handle, wire, newDh, step, r.error)
      ensures handle in old(unresolved) ==> r.Err? && unchanged(this) && unchanged(store)
    {
      hide Formed, Fires, After, Storable, ReceiveDone, ReadAsDuplicate, Took, TookWithin, DecodeSession, AnsweredFor,
           ReceiveFailed, LoadFailed, Shown, DuplicateError, Named;
      step := None;
      ghost var entry := store.versions;
      var blocked := RequireResolved(handle);
      if blocked.Some? {
        ReceiveLoadFails(device, entry, |entry|, unresolved, handle, wire, newDh, blocked.value);
        return Err(blocked.value), step;
      }
      var session, loaded := LoadSession(store, handle);
      if session.Err? {
        ReceiveLoadFails(device, store.versions, |entry|, unresolved, handle, wire, newDh, session.error);
        return Err(session.error), step;
      }
      r, step := ReceiveOn(store, session.value, handle, wire, newDh, fault, loaded, entry);
    }

    /** The part of a receive that follows once the session is loaded: `entry` is
        what the receive began with, `loaded` when the handle was read. */
    method ReceiveOn(store: EncryptedStore, session: DurableSession, handle: nat, wire: Wire<Payload>, newDh: DhKey, fault: Fault,
                     ghost loaded: nat, ghost entry: seq<Contents>)
      returns (r: Result<Received, MessagingError>, ghost step: Option<Step>)
      requires store.Valid() && session.Valid() && session.status == Active && Storable(session.State()) && session.our == device.our
      requires entry <= store.versions && Shown(store.versions, |entry|, device.our, handle, session.State())
      requires Within(store.versions, |entry|, loaded)
      requires Lookup(store.versions[loaded], HandleKey(handle)) == Some(HandleRecord(session.peer))
      modifies this, store, session
      ensures store.Valid() && old(store.versions) <= store.versions
      ensures step.Some? ==>
                var s := step.value;
                && TookWithin(device, newDh, entry, store.versions, s)
                && s.event.fault == fault && s.event.tx.Receive? && s.event.tx.wire == wire && s.event.tx.newDh == newDh
                && ReceiveDone(device, newDh, old(unresolved), unresolved, handle, store.versions, store.versions[s.at],
                               s.event, r)
      ensures step.None? ==> unresolved == old(unresolved) && !(r.Ok? && r.value.Accepted?)
      ensures Answered(store.versions, handle, wire, r)
      ensures step.Some? ==> Named(store.versions, |entry|, handle, step.value.event.tx.base.peer)
      ensures r.Err? ==>
                ReceiveFailed(device, store.versions, |entry|, old(unresolved), handle, wire, newDh, step, r.error)
    {
      hide Formed, Fires, After, ReceiveDone, ReadAsDuplicate, Took, TookWithin, DecodeSession, AnsweredFor,
           ReceiveFailed, Shown, DuplicateError, AnswerFailed, CannotDecrypt, Named;
      step := None;
      ghost var (p, was, read, base) := (session.peer, unresolved, store.versions, session.State());
      StorableIsWellFormed(base);
      var duplicate := ReadDuplicate(store, session.peer, wire);
      assert store.versions[loaded] == read[loaded];
      if duplicate.Err? {
        WithinSince(store.versions, |read|, |entry|);
        ReceiveDuplicateFails(device, store.versions, |entry|, was, handle, wire, newDh, p, loaded, step, duplicate.error);
        return Err(duplicate.error), step;
      }
      assert HandleShowed(store.versions, handle, p);
      if duplicate.value.Some? {
        AnsweredDuplicate(store.versions, handle, p, wire, duplicate.value.value);
        return Ok(duplicate.value.value), step;
      }
      ghost var tx, at;
      ghost var mid := store.versions;
      r, tx, at := DecryptAndCommit(store, session, handle, wire, newDh, fault);
      assert store.versions[loaded] == read[loaded];
      if tx.Some? {
        ghost var s := Step(at, Event(tx.value, fault, loaded, loaded));
        step := Some(s);
        IsNamed(store.versions, |entry|, handle, p, loaded);
        ReceiveTook(device, newDh, entry, store.versions, at, s.event);
        ReceiveDoneAnytime(device, newDh, was, unresolved, handle, store.versions, store.versions[at],
                           Event(tx.value, fault, 0, 0), s.event, r);
        ReceiveAnswers(device, newDh, was, unresolved, handle, store.versions, at, Event(tx.value, fault, 0, 0), r);
        if r.Err? {
          ReceiveCommitFails(device, store.versions, |mid|, |entry|, was, unresolved, handle, loaded, s, r);
        }
      } else {
        ReceiveStagingFails(device, read, store.versions, |entry|, was, handle, wire, newDh, base, r.error);
      }
    }

    // ── Acknowledgements, abandonment and removal ───────────────────────────

    /** Removes a pending message once its delivery is confirmed. */
    method AcknowledgeOutgoing(store: EncryptedStore, handle: nat, id: MessageId, fault: Fault)
      returns (r: Result<bool, MessagingError>, ghost step: Option<Step>)
      requires store.Valid()
      modifies store
      ensures store.Valid() && old(store.versions) <= store.versions
      ensures step.Some? ==>
                var s := step.value;
                && Took(device, 0, old(store.versions), store.versions, s)
                && s.event.tx.AckOut? && s.event.tx.id == id && s.event.fault == fault
                && (exists k :: 0 <= k <= s.at && Lookup(store.versions[k], HandleKey(handle)) == Some(HandleRecord(s.event.tx.peer)))
                && r == Repeatable(fault)
      ensures step.None? ==> r == Ok(false) || r.Err?
      ensures r.Ok? ==> exists p :: HandleShowed(store.versions, handle, p) && OutboxKey(p, id) !in store.contents
      ensures r.Err? ==> UpkeepFailed(UpkeepAckOut, store.versions, |old(store.versions)|, handle, id, step, r.error)
    {
      hide UpkeepFailed;
      step := None;
      ghost var since := |store.versions|;
      var peer := RequirePeer(store, handle);
      ghost var k := |store.versions| - 1;
      if peer.Err? {
        UpkeepHandleFails(UpkeepAckOut, store.versions, since, handle, id, k, peer.error);
        return Err(peer.error), step;
      }
      var key := OutboxKey(peer.value, id);
      var tx := store.Begin();
      assert HandleShowed(store.versions, handle, peer.value) by {
        assert Lookup(store.versions[k], HandleKey(handle)) == Some(HandleRecord(peer.value));
      }
      if key !in tx {
        return Ok(false), step;
      }
      if tx[key].Unreadable? {
        UpkeepRowFails(UpkeepAckOut, store.versions, since, handle, id, peer.value, k, StoreFailure);
        return Err(StoreFailure), step;
      }
      var committed := store.Commit(tx - {key}, fault);
      step := Some(Step(|store.versions| - 2, Event(AckOut(peer.value, id), fault, k, k)));
      assert Lookup(store.versions[k], HandleKey(handle)) == Some(HandleRecord(peer.value));
      assert HandleShowed(store.versions, handle, peer.value);
      UpkeepCommitFails(UpkeepAckOut, store.versions, since, handle, id, step.value, AsRepeatable(committed));
      return AsRepeatable(committed), step;
    }

    /** Gives up on a pending message without claiming it was delivered. */
    method AbandonOutgoing(store: EncryptedStore, handle: nat, id: MessageId, fault: Fault)
      returns (r: Result<bool, MessagingError>, ghost step: Option<Step>)
      requires store.Valid()
      modifies store
      ensures store.Valid() && old(store.versions) <= store.versions
      ensures step.Some? ==>
                var s := step.value;
                && Took(device, 0, old(store.versions), store.versions, s)
                && s.event.tx.Abandon? && s.event.tx.id == id && s.event.fault == fault
                && (exists k :: 0 <= k <= s.at && Lookup(store.versions[k], HandleKey(handle)) == Some(HandleRecord(s.event.tx.peer)))
                && r == Repeatable(fault)
      ensures step.None? ==> r == Ok(false) || r.Err?
      ensures r.Ok? ==> exists p :: HandleShowed(store.versions, handle, p) && OutboxKey(p, id) !in store.contents
      ensures r.Err? ==> UpkeepFailed(UpkeepAbandon, store.versions, |old(store.versions)|, handle, id, step, r.error)
    {
      hide UpkeepFailed;
      step := None;
      ghost var since := |store.versions|;
      var peer := RequirePeer(store, handle);
      ghost var k := |store.versions| - 1;
      if peer.Err? {
        UpkeepHandleFails(UpkeepAbandon, store.versions, since, handle, id, k, peer.error);
        return Err(peer.error), step;
      }
      var key := OutboxKey(peer.value, id);
      var tx := store.Begin();
      assert Lookup(store.versions[k], HandleKey(handle)) == Some(HandleRecord(peer.value));
      if key !in tx {
        return Ok(false), step;
      }
      if !DecodesOutbox(tx[key]) {
        UpkeepRowFails(UpkeepAbandon, store.versions, since, handle, id, peer.value, k,
                       if tx[key].Unreadable? then StoreFailure else InvalidRecord);
        return Err(if tx[key].Unreadable? then StoreFailure else InvalidRecord), step;
      }
      var client := tx[key].outgoing.client;
      tx := tx - {key};
      tx := tx[SendIdKey(peer.value, client) := AbandonedRecord(id)];
      var committed := store.Commit(tx, fault);
      step := Some(Step(|store.versions| - 2, Event(Abandon(peer.value, id), fault, k, k)));
      assert Lookup(store.versions[k], HandleKey(handle)) == Some(HandleRecord(peer.value));
      UpkeepCommitFails(UpkeepAbandon, store.versions, since, handle, id, step.value, AsRepeatable(committed));
      return AsRepeatable(committed), step;
    }

    /** Records that the application has durably processed a message. */
    method AcknowledgeIncoming(store: EncryptedStore, handle: nat, id: MessageId, fault: Fault)
      returns (r: Result<bool, MessagingError>, ghost step: Option<Step>)
      requires store.Valid()
      modifies store
      ensures store.Valid() && old(store.versions) <= store.versions
      ensures step.Some? ==>
                var s := step.value;
                && Took(device, 0, old(store.versions), store.versions, s)
                && s.event.tx.AckIn? && s.event.tx.id == id && s.event.fault == fault
                && (exists k :: 0 <= k <= s.at && Lookup(store.versions[k], HandleKey(handle)) == Some(HandleRecord(s.event.tx.peer)))
                && r == Repeatable(fault)
      ensures step.None? && r.Ok? ==> r == Ok(false)
      ensures r.Ok? ==>
                exists p ::
                  HandleShowed(store.versions, handle, p) && SeenKey(p, id) in store.contents && InboxKey(p, id) !in store.contents
      ensures r.Err? ==> UpkeepFailed(UpkeepAckIn, store.versions, |old(store.versions)|, handle, id, step, r.error)
    {
      hide UpkeepFailed;
      step := None;
      ghost var since := |store.versions|;
      var peer := RequirePeer(store, handle);
      ghost var k := |store.versions| - 1;
      if peer.Err? {
        UpkeepHandleFails(UpkeepAckIn, store.versions, since, handle, id, k, peer.error);
        return Err(peer.error), step;
      }
      var (inbox, seen) := (InboxKey(peer.value, id), SeenKey(peer.value, id));
      var tx := store.Begin();
      if inbox !in tx {
        if seen !in tx {
          UpkeepRowFails(UpkeepAckIn, store.versions, since, handle, id, peer.value, k, UnknownMessage);
          return Err(UnknownMessage), step;
        }
        if tx[seen].Unreadable? {
          UpkeepRowFails(UpkeepAckIn, store.versions, since, handle, id, peer.value, k, StoreFailure);
          return Err(StoreFailure), step;
        }
        assert Lookup(store.versions[k], HandleKey(handle)) == Some(HandleRecord(peer.value));
        assert SeenKey(peer.value, id) in store.contents;
        return Ok(false), step;
      }
      if !tx[inbox].InboxRecord? || tx[inbox].incoming.id != id {
        UpkeepRowFails(UpkeepAckIn, store.versions, since, handle, id, peer.value, k,
                       if tx[inbox].Unreadable? then StoreFailure else InvalidRecord);
        return Err(if tx[inbox].Unreadable? then StoreFailure else InvalidRecord), step;
      }
      var committed := store.Commit((tx - {inbox})[seen := SeenRecord(id)], fault);
      step := Some(Step(|store.versions| - 2, Event(AckIn(peer.value, id), fault, k, k)));
      assert Lookup(store.versions[k], HandleKey(handle)) == Some(HandleRecord(peer.value));
      UpkeepCommitFails(UpkeepAckIn, store.versions, since, handle, id, step.value, AsRepeatable(committed));
      return AsRepeatable(committed), step;
    }

    /** The transaction of a removal: `base` was loaded, and nothing was pending on
        it when its outbox was listed. */
    method CommitRemoval(store: EncryptedStore, base: SessionState, handle: nat, fault: Fault, ghost loaded: nat, ghost listed: nat,
                         ghost since: nat)
      returns (r: Result<(), MessagingError>, ghost step: Option<Step>)
      requires store.Valid() && loaded <= listed < |store.versions| && since <= |store.versions|
      requires Storable(base) && base.our == device.our && !Established(base) && Shown(store.versions, since, device.our, handle, base)
      requires Lookup(store.versions[loaded], SessionKey(base.peer)) == Some(SessionRecord(base))
      requires NoPending(store.versions[listed], base.peer)
      modifies store
      ensures store.Valid() && old(store.versions) <= store.versions
      ensures step.Some? ==>
                var s := step.value;
                && s.event.tx == Remove(base) && s.event.fault == fault
                && (handle == device.handleOf(base.peer) ==>
                      Took(device, 0, old(store.versions), store.versions, s) && Fires(device, 0, store.versions[s.at], s.event.tx))
                && r == match Repeatable(fault) case Ok(_) => Ok(()) case Err(e) => Err(e)
      ensures step.None? ==> r.Err?
      ensures r.Ok? ==> {SessionKey(base.peer), HandleKey(handle), HandshakeKey(base.peer)} !! store.contents.Keys
      ensures r.Err? ==> RemoveFailed(device, store.versions, since, unresolved, handle, step, r.error)
    {
      hide Storable, NoPending, RemoveFailed, Shown, Established;
      ghost var read := store.versions;
      step := None;
      var p := base.peer;
      var tx := store.Begin();
      if SessionKey(p) !in tx || tx[SessionKey(p)] != SessionRecord(base) {
        var e := if SessionKey(p) in tx && tx[SessionKey(p)].Unreadable? then StoreFailure else Conflicting(RecordChanged);
        RemoveSessionFails(device, read, store.versions, since, unresolved, handle, base, e);
        return Err(e), step;
      }
      var committed := store.Commit(tx - {SessionKey(p), HandleKey(handle), HandshakeKey(p)}, fault);
      assert store.versions[loaded] == read[loaded] && store.versions[listed] == read[listed];
      step := Some(Step(|store.versions| - 2, Event(Remove(base), fault, loaded, listed)));
      RemoveCommitFails(device, store.versions, since, unresolved, handle, step.value);
      return match AsRepeatable(committed) case Ok(_) => Ok(()) case Err(e) => Err(e), step;
    }

    /** Deletes a session with no obligations left. */
    method RemoveSession(store: EncryptedStore, handle: nat, fault: Fault)
      returns (r: Result<(), MessagingError>, ghost step: Option<Step>)
      requires store.Valid()
      modifies store
      ensures store.Valid() && old(store.versions) <= store.versions
      ensures step.Some? ==>
                var s := step.value;
                && s.event.tx.Remove? && s.event.fault == fault
                && (handle == device.handleOf(s.event.tx.base.peer) ==>
                      Took(device, 0, old(store.versions), store.versions, s) && Fires(device, 0, store.versions[s.at], s.event.tx))
                && r == match Repeatable(fault) case Ok(_) => Ok(()) case Err(e) => Err(e)
      ensures step.None? ==> r.Err?
      ensures step.Some? ==> HandleShowed(store.versions, handle, step.value.event.tx.base.peer)
      ensures r.Ok? ==>
                {SessionKey(step.value.event.tx.base.peer), HandleKey(handle), HandshakeKey(step.value.event.tx.base.peer)}
                !! store.contents.Keys
      ensures r.Err? ==> RemoveFailed(device, store.versions, |old(store.versions)|, unresolved, handle, step, r.error)
      ensures handle in unresolved ==> r.Err? && unchanged(store)
    {
      hide Storable, NoPending, RemoveFailed, LoadFailed, Shown, HasOutgoing, Established, Took, Fires, Formed;
      step := None;
      ghost var before := store.versions;
      ghost var since := |before|;
      var blocked := RequireResolved(handle);
      if blocked.Some? {
        RemoveLoadFails(device, store.versions, since, unresolved, handle, blocked.value);
        return Err(blocked.value), step;
      }
      var session, shown := LoadSession(store, handle);
      if session.Err? {
        RemoveLoadFails(device, store.versions, since, unresolved, handle, session.error);
        return Err(session.error), step;
      }
      ghost var read := store.versions;
      var base := session.value.State();
      if Established(base) {
        RemoveSessionFails(device, read, store.versions, since, unresolved, handle, base, SessionEstablished);
        return Err(SessionEstablished), step;
      }
      var p := base.peer;
      var keys := store.ListKeys();
      ghost var listed := store.versions;
      if exists key :: key in keys && key.OutboxKey? && key.peer == p {
        ListedSome(store.contents, keys, p);
        RemoveSessionFails(device, read, store.versions, since, unresolved, handle, base, PendingOutgoing);
        return Err(PendingOutgoing), step;
      }
      ListedNone(store.contents, keys, p);
      ShownLater(read, listed, since, since, device.our, handle, base);
      assert Lookup(listed[|read| - 1], SessionKey(p)) == Some(SessionRecord(base));
      r, step := CommitRemoval(store, base, handle, fault, |read| - 1, |listed| - 1, since);
      assert Lookup(store.versions[shown], HandleKey(handle)) == Some(HandleRecord(p));
      if step.Some? && handle == device.handleOf(p) {
        TookSince(device, 0, before, listed, store.versions, step.value);
      }
    }

    // ── Creating sessions ────────────────────────────────────────────────────

    /** After a refused creation: which of the two is taken. */
    method ClassifyTaken(store: EncryptedStore, handle: nat, peer: Identity) returns (e: MessagingError)
      requires store.Valid()
      modifies store
      ensures store.Valid() && old(store.versions) <= store.versions
      ensures e == HandleCollision <==>
                var found := Lookup(store.contents, HandleKey(handle));
                found.Some? && found.value.HandleRecord? && found.value.peer != peer
      ensures e == SessionExists <==>
                var found := Lookup(store.contents, HandleKey(handle));
                found.None? || found.value == HandleRecord(peer)
      ensures e != HandleCollision && e != SessionExists ==> HandleError(store.contents, handle) == Some(e)
      ensures !e.UnknownOutcome?
    {
      var record := store.Get(HandleKey(handle));
      match record
      case None => return SessionExists;
      case Some(HandleRecord(p)) => return if p == peer then SessionExists else HandleCollision;
      case Some(Unreadable) => return StoreFailure;
      case Some(_) => return InvalidRecord;
    }

    /** Stores a new initiator session with its handle and handshake, all fresh. */
    method CreateSession(store: EncryptedStore, peer: Identity, signedPrekey: DhKey, oneTime: Option<DhKey>,
                         ephemeral: DhKey, dh: DhKey, fault: Fault)
      returns (r: Result<(), MessagingError>, ghost step: Step)
      requires store.Valid() && signedPrekey < ephemeral < dh
      modifies this, store
      ensures store.Valid() && old(store.versions) <= store.versions
      ensures step.at + 2 <= |store.versions|
      ensures Took(device, ephemeral, old(store.versions), store.versions[..step.at + 2], step)
      ensures step.event.fault == fault && step.event.tx == Create(peer, signedPrekey, oneTime, ephemeral, dh)
      ensures var (handle, fires) := (device.handleOf(peer), Fires(device, ephemeral, store.versions[step.at], step.event.tx));
              && (r == Ok(()) <==> fires && fault.NoFault?)
              && (r == Err(UnknownOutcome(0)) <==> fires && (fault.CommitStored? || fault.CommitLost?))
              && unresolved == (if r == Ok(()) then old(unresolved) - {handle}
                                else if r == Err(UnknownOutcome(0)) then
                                  old(unresolved)[handle := UnresolvedCreate(device, step.event.tx)]
                                else old(unresolved))
      ensures r.Err? ==> CreateFailed(device, store.versions, |old(store.versions)|, peer, ephemeral, step, r.error)
    {
      hide Fires, After, CreateFailed, Overtaken;
      var handle := device.handleOf(peer);
      var tx := Create(peer, signedPrekey, oneTime, ephemeral, dh);
      assert Formed(device, ephemeral, tx);
      ghost var since := |store.versions|;
      var committed := CommitCreation(device, store, tx, fault);
      step := Step(|store.versions| - 2, Event(tx, fault, 0, 0));
      ghost var read := store.versions;
      CreationReports(device, read, since, step, committed);
      if committed.Ok? {
        unresolved := unresolved - {handle};
        return Ok(()), step;
      }
      if committed.error.AlreadyExists? || (committed.error.OpenSideConflict? && committed.error.index == 0) {
        var e := ClassifyTaken(store, handle, peer);
        assert store.versions[step.at] == read[step.at] && store.versions[..step.at + 2] == read;
        CreateTakenFails(device, read, store.versions, since, peer, ephemeral, step, e);
        return Err(e), step;
      }
      if committed.error.OpenOutcomeUnknown? {
        unresolved := unresolved[handle := Unresolved(0, [HandleKey(handle)], true, None)];
      }
      return Err(if committed.error.OpenOutcomeUnknown? then UnknownOutcome(0)
                 else if committed.error.OpenSideConflict? then InconsistentStore else KeptNothing), step;
    }

    /** Decrypts `wire` on the candidate of a handshake and, if it authenticates,
        attempts to store the result. `fallback` asks for the message to be
        received on the peer's session instead. */
    method TryAccept(store: EncryptedStore, handshake: InitiatorHandshake, prekeys: Prekeys, wire: Wire<Payload>,
                     newDh: DhKey, newOneTime: DhKey, fault: Fault)
      returns (r: Result<Received, MessagingError>, fallback: bool, tx: Option<Tx>)
      requires store.Valid() && newDh < newOneTime
      requires handshake.InitiatorHandshake? && CheckAnswerable(prekeys, handshake).None?
      modifies this, store
      ensures store.Valid() && old(store.versions) <= store.versions
      ensures tx.None? ==> unresolved == old(unresolved) && unchanged(store) && r.Err? && !fallback
      ensures tx.None? ==>
                r.error.RatchetFailure? && CannotDecrypt(Candidate(device.our, handshake, prekeys), wire, newDh, r.error.staging)
      ensures tx.Some? ==>
                && tx.value == Tx.Accept(handshake.identity, handshake, prekeys, wire, newDh, newOneTime)
                && Formed(device, newDh, tx.value) && |store.versions| > |old(store.versions)|
                && var found := store.versions[|store.versions| - 2];
                && store.contents == After(device, newDh, found, tx.value, fault)
                && AcceptDone(device, old(unresolved), unresolved, found, Event(tx.value, fault, 0, 0), r)
                && (fallback ==> !Fires(device, newDh, found, tx.value) && !fault.FailsBefore? && unresolved == old(unresolved))
                && (r.Ok? ==> Fires(device, newDh, found, tx.value))
                && (r.Err? && !fallback && !Fires(device, newDh, found, tx.value) && !fault.FailsBefore? ==>
                      r.error.Conflicting? || (r.error.ExtraConflict? && PrekeySpent(found, prekeys)))
    {
      hide Formed, After, Fires, StagedReceive, Candidate, CheckAnswerable, OpenedWhen, AcceptDone, SettleOpened, IsTaken,
           StageDecrypt, WellFormed, ReceiveArtifacts, PrekeySpent;
      var base := Candidate(device.our, handshake, prekeys);
      CandidateIsNew(device.our, handshake, prekeys);
      var candidate := new ProvisionalSession(base);
      var staged := candidate.StageFirstDecrypt(wire, newDh);
      if staged.Err? {
        return Err(StagingFailure(staged.error)), false, None;
      }
      var attempt := Tx.Accept(handshake.identity, handshake, prekeys, wire, newDh, newOneTime);
      AcceptFormed(device, handshake.identity, handshake, prekeys, wire, newDh, newOneTime,
                   StageDecrypt(base.ratchet, wire.header, wire.cipher, base.ad, newDh).value);
      var m := IncomingMessage(wire, staged.value.generation, staged.value.output);
      var committed := CommitAcceptance(device, store, candidate, staged.value, attempt, fault);
      AcceptSettles(device, unresolved, store.versions[|store.versions| - 2], Event(attempt, fault, 0, 0), committed);
      tx, fallback := Some(attempt), IsTaken(committed);
      if committed.Err? && committed.error.OpenOutcomeUnknown? {
        unresolved := unresolved[device.handleOf(handshake.identity) :=
                                   Unresolved(m.generation, ReceiveArtifacts(handshake.identity, wire), true, None)];
      }
      r := SettleOpened(committed, m);
    }

    /** What accepting a first message may do: attempt the acceptance, then, if
        the peer turned out to have a session, receive the message on it. */
    ghost predicate AcceptContract(was: map<nat, Unresolved>, before: seq<Contents>, after: seq<Contents>, peer: Identity,
                                   handshake: InitiatorHandshake, wire: Wire<Payload>, newDh: DhKey, fault: Fault,
                                   r: Result<Received, MessagingError>, attempt: Option<Step>, receipt: Option<Step>)
      reads this
    {
      && (attempt.Some? ==>
            var s := attempt.value;
            && TookWithin(device, newDh, before, after, s) && s.event.fault == fault
            && s.event.tx.Accept? && s.event.tx.peer == peer && s.event.tx.handshake == handshake
            && s.event.tx.wire == wire && s.event.tx.newDh == newDh
            && (receipt.Some? ==> !Fires(device, newDh, after[s.at], s.event.tx))
            && (receipt.None? ==>
                  && AcceptDone(device, was, unresolved, after[s.at], s.event, r)
                  && (r.Ok? && r.value.Accepted? ==> Fires(device, newDh, after[s.at], s.event.tx))))
      && (receipt.Some? ==>
            var s := receipt.value;
            && TookWithin(device, newDh, before, after, s) && s.event.fault == fault
            && s.event.tx.Receive? && s.event.tx.wire == wire && s.event.tx.newDh == newDh
            && Named(after, |before|, device.handleOf(peer), s.event.tx.base.peer)
            && ReceiveDone(device, newDh, was, unresolved, device.handleOf(peer), after, after[s.at], s.event, r))
      && (attempt.None? && receipt.None? ==> unresolved == was && !(r.Ok? && r.value.Accepted?))
    }

    /** Creates the responder session of a recorded handshake from the peer's
        first message, if the prekeys held now can answer it and the message
        authenticates; if the peer has a session by then, the message is received
        on that session instead. */
    method AcceptFirstMessage(store: EncryptedStore, peer: Identity, handshake: InitiatorHandshake, wire: Wire<Payload>,
                              newDh: DhKey, newOneTime: DhKey, fault: Fault)
      returns (r: Result<Received, MessagingError>, ghost attempt: Option<Step>, ghost receipt: Option<Step>)
      requires store.Valid() && newDh < newOneTime
      modifies this, store
      ensures store.Valid() && old(store.versions) <= store.versions
      ensures AcceptContract(old(unresolved), old(store.versions), store.versions, peer, handshake, wire, newDh, fault, r, attempt,
                             receipt)
      ensures Answered(store.versions, device.handleOf(peer), wire, r)
      ensures r.Err? ==>
                AcceptFailed(device, store.versions, |old(store.versions)|, old(unresolved), peer, handshake, wire, newDh,
                             attempt, receipt, r.error)
    {
      hide Formed, Fires, After, ReceiveDone, AcceptDone, CheckAnswerable, Reads, AnsweredFor, AcceptFailed, ReceiveFailed, InsteadFailed,
           TakenFailed, NoPrekeys, PrekeysHeld;
      attempt, receipt := None, None;
      var handle := device.handleOf(peer);
      ghost var (since, was) := (|store.versions|, unresolved);
      ghost var none := Prekeys(0, None);
      if handshake.MalformedHandshake? {
        AcceptFailsEarly(device, store.versions, since, was, peer, handshake, wire, newDh, none, 0, InvalidHandshake);
        return Err(InvalidHandshake), attempt, receipt;
      }
      if handshake.identity != peer {
        AcceptFailsEarly(device, store.versions, since, was, peer, handshake, wire, newDh, none, 0, InconsistentStore);
        return Err(InconsistentStore), attempt, receipt;
      }
      var record := store.Get(PrekeysKey);
      PrekeysRead(store.versions, since);
      if record.None? || !record.value.PrekeyRecord? {
        AcceptFailsEarly(device, store.versions, since, was, peer, handshake, wire, newDh, none, 0, PrekeysUnavailable);
        return Err(PrekeysUnavailable), attempt, receipt;
      }
      var refused := CheckAnswerable(record.value.prekeys, handshake);
      if refused.Some? {
        r, receipt := ReceiveUnanswered(store, peer, handshake, record.value.prekeys, wire, newDh, fault, since);
        return r, attempt, receipt;
      }
      var blocked := RequireResolved(handle);
      if blocked.Some? {
        AcceptFailsEarly(device, store.versions, since, was, peer, handshake, wire, newDh, none, 0, blocked.value);
        return Err(blocked.value), attempt, receipt;
      }
      r, attempt, receipt := AcceptOrReceive(store, handshake, record.value.prekeys, wire, newDh, newOneTime, fault, since);
    }

    /** The prekeys held cannot answer the handshake: another instance may have
        answered it since, and the message then belongs to that session. */
    method ReceiveUnanswered(store: EncryptedStore, peer: Identity, handshake: InitiatorHandshake, prekeys: Prekeys,
                             wire: Wire<Payload>, newDh: DhKey, fault: Fault, ghost since: nat)
      returns (r: Result<Received, MessagingError>, ghost receipt: Option<Step>)
      requires store.Valid() && since <= |store.versions| && PrekeysHeld(store.versions, since, prekeys)
      requires handshake.InitiatorHandshake? && CheckAnswerable(prekeys, handshake).Some?
      modifies this, store
      ensures store.Valid() && old(store.versions) <= store.versions
      ensures receipt.Some? ==>
                var s := receipt.value;
                && TookWithin(device, newDh, old(store.versions), store.versions, s)
                && s.event.fault == fault && s.event.tx.Receive? && s.event.tx.wire == wire && s.event.tx.newDh == newDh
                && Named(store.versions, |old(store.versions)|, device.handleOf(peer), s.event.tx.base.peer)
                && ReceiveDone(device, newDh, old(unresolved), unresolved, device.handleOf(peer), store.versions,
                               store.versions[s.at], s.event, r)
      ensures receipt.None? ==> unresolved == old(unresolved) && !(r.Ok? && r.value.Accepted?)
      ensures Answered(store.versions, device.handleOf(peer), wire, r)
      ensures r.Err? ==>
                AcceptFailed(device, store.versions, since, old(unresolved), peer, handshake, wire, newDh, None, receipt, r.error)
    {
      hide Formed, Fires, After, ReceiveDone, CheckAnswerable, Reads, AnsweredFor, AcceptFailed, ReceiveFailed, TakenFailed,
           PrekeysHeld;
      receipt := None;
      ghost var (was, read) := (unresolved, store.versions);
      var handle := device.handleOf(peer);
      var taken := RequirePeer(store, handle);
      ghost var (mid, k) := (store.versions, |store.versions| - 1);
      if taken.Err? {
        PrekeysHeldLater(read, store.versions, since, since, prekeys);
        var e := if taken.error == NoSession then PrekeyRefused(CheckAnswerable(prekeys, handshake).value) else taken.error;
        AcceptFailsEarly(device, store.versions, since, was, peer, handshake, wire, newDh, prekeys, k, e);
        return Err(e), receipt;
      }
      r, receipt := Receive(store, handle, wire, newDh, fault);
      if r.Err? {
        assert store.versions[k] == mid[k];
        TakenReceiveFails(device, store.versions, |mid|, since, was, handle, taken.value, k, wire, newDh, receipt, r.error);
        PrekeysHeldLater(read, store.versions, since, since, prekeys);
        AcceptTakenFails(device, store.versions, since, was, peer, handshake, wire, newDh, prekeys, receipt, r.error);
      }
    }

    /** The peer's slot was taken: receives the message on the peer's session, if
        it is under the same handle. */
    method ReceiveInstead(store: EncryptedStore, peer: Identity, wire: Wire<Payload>, newDh: DhKey, fault: Fault)
      returns (r: Result<Received, MessagingError>, ghost receipt: Option<Step>)
      requires store.Valid()
      modifies this, store
      ensures store.Valid() && old(store.versions) <= store.versions
      ensures receipt.Some? ==>
                var s := receipt.value;
                && TookWithin(device, newDh, old(store.versions), store.versions, s)
                && s.event.fault == fault && s.event.tx.Receive? && s.event.tx.wire == wire && s.event.tx.newDh == newDh
                && Named(store.versions, |old(store.versions)|, device.handleOf(peer), s.event.tx.base.peer)
                && ReceiveDone(device, newDh, old(unresolved), unresolved, device.handleOf(peer), store.versions,
                               store.versions[s.at], s.event, r)
      ensures receipt.None? ==> unresolved == old(unresolved) && !(r.Ok? && r.value.Accepted?)
      ensures Answered(store.versions, device.handleOf(peer), wire, r)
      ensures r.Err? ==>
                InsteadFailed(device, store.versions, |old(store.versions)|, old(unresolved), peer, wire, newDh, receipt, r.error)
    {
      hide Formed, Fires, After, ReceiveDone, Reads, AnsweredFor, ReceiveFailed, TakenFailed;
      receipt := None;
      var handle := device.handleOf(peer);
      ghost var since := |store.versions|;
      var e := ClassifyTaken(store, handle, peer);
      if e != SessionExists {
        InsteadHandleFails(device, store.versions, since, unresolved, peer, wire, newDh, |store.versions| - 1, e);
        return Err(e), receipt;
      }
      var owner := RequirePeer(store, handle);
      if owner != Ok(peer) {
        e := if owner.Err? && owner.error != NoSession then owner.error else SessionExists;
        InsteadHandleFails(device, store.versions, since, unresolved, peer, wire, newDh, |store.versions| - 1, e);
        return Err(e), receipt;
      }
      ghost var (mid, k) := (store.versions, |store.versions| - 1);
      r, receipt := Receive(store, handle, wire, newDh, fault);
      if r.Err? {
        assert store.versions[k] == mid[k];
        TakenReceiveFails(device, store.versions, |mid|, since, old(unresolved), handle, peer, k, wire, newDh, receipt, r.error);
      }
    }

    /** The part of an acceptance that follows once the prekeys are read: `since` is
        when it began. */
    method AcceptOrReceive(store: EncryptedStore, handshake: InitiatorHandshake, prekeys: Prekeys, wire: Wire<Payload>,
                           newDh: DhKey, newOneTime: DhKey, fault: Fault, ghost since: nat)
      returns (r: Result<Received, MessagingError>, ghost attempt: Option<Step>, ghost receipt: Option<Step>)
      requires store.Valid() && newDh < newOneTime && since <= |store.versions| && PrekeysHeld(store.versions, since, prekeys)
      requires handshake.InitiatorHandshake? && CheckAnswerable(prekeys, handshake).None?
      modifies this, store
      ensures store.Valid() && old(store.versions) <= store.versions
      ensures AcceptContract(old(unresolved), old(store.versions), store.versions, handshake.identity, handshake, wire,
                             newDh, fault, r, attempt, receipt)
      ensures Answered(store.versions, device.handleOf(handshake.identity), wire, r)
      ensures r.Err? ==>
                AcceptFailed(device, store.versions, since, old(unresolved), handshake.identity, handshake, wire, newDh,
                             attempt, receipt, r.error)
    {
      hide AnsweredFor, Formed, Fires, After, StagedReceive, Candidate, CheckAnswerable, ReceiveDone, AcceptDone, AcceptFailed,
           InsteadFailed, PrekeysHeld, PrekeySpent, CannotDecrypt;
      attempt, receipt := None, None;
      ghost var (before, read) := (unresolved, store.versions);
      var fallback, tx;
      r, fallback, tx := TryAccept(store, handshake, prekeys, wire, newDh, newOneTime, fault);
      PrekeysHeldLater(read, store.versions, since, since, prekeys);
      if tx.None? {
        AcceptStagingFails(device, store.versions, since, before, handshake, prekeys, wire, newDh, r.error);
        return r, attempt, receipt;
      }
      ghost var own := Step(|store.versions| - 2, Event(tx.value, fault, 0, 0));
      attempt := Some(own);
      assert store.versions[..own.at + 2] == store.versions;
      if fallback {
        ghost var (prefix, found) := (store.versions, store.versions[own.at]);
        NotFired(device, unresolved, found, own.event);
        r, receipt := ReceiveInstead(store, handshake.identity, wire, newDh, fault);
        assert store.versions[..own.at + 2] == prefix && store.versions[own.at] == found;
        if r.Err? {
          AcceptInsteadFails(device, store.versions, |prefix|, since, before, handshake.identity, handshake, wire, newDh,
                             attempt, receipt, r.error);
        }
      } else {
        AcceptAnswers(device, before, unresolved, store.versions, own.at, own.event, r);
        if r.Err? {
          AcceptCommitFails(device, store.versions, since, before, unresolved, handshake.identity, own, r);
        }
      }
    }

    // ── Provisional handshakes and legacy sessions ──────────────────────────

    /** Records a handshake nothing has authenticated yet, replacing any recorded
        before; a legacy session of the same peer is retired for it. */
    method RecordProvisionalHandshake(store: EncryptedStore, peer: Identity, handshake: InitiatorHandshake, prekeys: Prekeys,
                                      fault: Fault)
      returns (r: Result<(), MessagingError>, ghost step: Option<Step>)
      requires store.Valid()
      modifies store
      ensures store.Valid() && old(store.versions) <= store.versions
      ensures step.Some? ==>
                var s := step.value;
                && Took(device, 0, old(store.versions), store.versions, s) && s.event.fault == fault
                && Fires(device, 0, store.versions[s.at], s.event.tx)
                && (s.event.tx == RecordHandshake(peer, handshake)
                    || (s.event.tx.Retire? && s.event.tx.base.peer == peer
                        && s.event.tx.handshake == handshake && s.event.tx.prekeys == prekeys))
                && r == match Repeatable(fault) case Ok(_) => Ok(()) case Err(e) => Err(e)
      ensures step.None? && r.Ok? ==>
                Lookup(store.contents, ProvisionalKey(device.handleOf(peer))) == Some(ProvisionalRecord(peer, handshake))
      ensures r.Err? ==> RecordFailed(device, store.versions, |old(store.versions)|, unresolved, peer, prekeys, step, r.error)
    {
      hide RecordFailed;
      step := None;
      ghost var since := |store.versions|;
      var (handle, record) := (device.handleOf(peer), ProvisionalRecord(peer, handshake));
      var tx := store.Begin();
      var found := Lookup(tx, HandleKey(handle));
      if found.Some? {
        if found.value == HandleRecord(peer) {
          ghost var mid := store.versions;
          r, step := RetireLegacy(store, handle, peer, handshake, prekeys, fault);
          if r.Err? {
            RecordFailedLater(device, store.versions, |mid|, since, unresolved, peer, prekeys, step, r.error);
          }
          return r, step;
        }
        var e := if found.value.HandleRecord? then HandleCollision
                 else if found.value.Unreadable? then StoreFailure else InvalidRecord;
        RecordTakenFails(device, store.versions, since, unresolved, peer, prekeys, e);
        return Err(e), step;
      }
      if SessionKey(peer) in tx {
        RecordTakenFails(device, store.versions, since, unresolved, peer, prekeys, SessionExists);
        return Err(SessionExists), step;
      }
      if Lookup(tx, ProvisionalKey(handle)) == Some(record) {
        return Ok(()), step;
      }
      var committed := store.Commit(tx[ProvisionalKey(handle) := record], fault);
      step := Some(Step(|store.versions| - 2, Event(RecordHandshake(peer, handshake), fault, 0, 0)));
      RecordCommitFails(device, store.versions, since, unresolved, peer, prekeys, step.value);
      return match AsRepeatable(committed) case Ok(_) => Ok(()) case Err(e) => Err(e), step;
    }

    /** Retires the legacy session under `handle` and records the handshake in its
        place, only while the session, its handle and the prekeys the handshake
        was validated against are still what was read. */
    method RetireLegacy(store: EncryptedStore, handle: nat, peer: Identity, handshake: InitiatorHandshake, prekeys: Prekeys,
                        fault: Fault)
      returns (r: Result<(), MessagingError>, ghost step: Option<Step>)
      requires store.Valid() && handle == device.handleOf(peer)
      modifies store
      ensures store.Valid() && old(store.versions) <= store.versions
      ensures step.Some? ==>
                var s := step.value;
                && Took(device, 0, old(store.versions), store.versions, s) && s.event.fault == fault
                && Fires(device, 0, store.versions[s.at], s.event.tx)
                && s.event.tx.Retire? && s.event.tx.base.peer == peer
                && s.event.tx.handshake == handshake && s.event.tx.prekeys == prekeys
                && r == match Repeatable(fault) case Ok(_) => Ok(()) case Err(e) => Err(e)
      ensures step.None? ==> r.Err?
      ensures r.Err? ==> RecordFailed(device, store.versions, |old(store.versions)|, unresolved, peer, prekeys, step, r.error)
    {
      hide Storable, LegacyUnconfirmed, NoPending, Formed, Fires, After, Took, RecordFailed, LoadFailed, Shown, Obliged;
      step := None;
      ghost var since := |store.versions|;
      var blocked := RequireResolved(handle);
      if blocked.Some? {
        RecordLoadFails(device, store.versions, since, unresolved, peer, prekeys, blocked.value);
        return Err(blocked.value), step;
      }
      var session, _ := LoadSession(store, handle);
      ghost var loaded := |store.versions| - 1;
      if session.Err? {
        RecordLoadFails(device, store.versions, since, unresolved, peer, prekeys, session.error);
        return Err(if session.error == MissingSession || session.error.InvalidSession? then SessionExists else session.error), step;
      }
      ghost var read := store.versions;
      var base := session.value.State();
      if !LegacyUnconfirmed(base) {
        RecordSessionFails(device, read, read, since, unresolved, peer, prekeys, base, SessionExists);
        return Err(SessionExists), step;
      }
      var p := base.peer;
      var obliged;
      ghost var listed;
      obliged, listed := ListObligations(store, p);
      if obliged {
        RecordSessionFails(device, read, store.versions, since, unresolved, peer, prekeys, base, SessionNotRetirable);
        return Err(SessionNotRetirable), step;
      }
      ghost var before := store.versions;
      assert before[loaded] == read[loaded];
      if p != peer {
        var _ := store.Begin();
        RecordAnotherFails(device, read, store.versions, since, unresolved, peer, prekeys, base);
        return Err(Conflicting(RecordChanged)), step;
      }
      ShownLater(read, before, since, since, device.our, handle, base);
      r, step := CommitRetirement(store, base, handshake, prekeys, fault, loaded, listed, since);
      if step.Some? {
        TookSince(device, 0, old(store.versions), before, store.versions, step.value);
      }
    }

    /** Whether anything is pending for the peer, or undelivered from it: the outbox
        is listed first, at `listed`. */
    method ListObligations(store: EncryptedStore, p: Identity) returns (obliged: bool, ghost listed: nat)
      requires store.Valid()
      modifies store
      ensures store.Valid() && old(store.versions) <= store.versions
      ensures Within(store.versions, |old(store.versions)|, listed)
      ensures if obliged then Obliged(device, store.contents, p) else NoPending(store.versions[listed], p)
    {
      hide Obliged, NoPending;
      var keys := store.ListKeys();
      listed := |store.versions| - 1;
      if exists key :: key in keys && key.OutboxKey? && key.peer == p {
        ListedObliged(device, store.contents, keys, p);
        return true, listed;
      }
      ListedNone(store.contents, keys, p);
      ghost var at := store.versions;
      keys := store.ListKeys();
      assert store.versions[listed] == at[listed];
      if exists key :: key in keys && key.InboxKey? && key.peer == p {
        ListedObliged(device, store.contents, keys, p);
        return true, listed;
      }
      return false, listed;
    }

    /** The transaction of a retirement: everything read before is checked again. */
    method CommitRetirement(store: EncryptedStore, base: SessionState, handshake: InitiatorHandshake, prekeys: Prekeys, fault: Fault,
                            ghost loaded: nat, ghost listed: nat, ghost since: nat)
      returns (r: Result<(), MessagingError>, ghost step: Option<Step>)
      requires store.Valid() && loaded <= listed < |store.versions|
      requires Storable(base) && base.our == device.our && LegacyUnconfirmed(base)
      requires NoPending(store.versions[listed], base.peer)
      requires Lookup(store.versions[loaded], SessionKey(base.peer)) == Some(SessionRecord(base))
      requires since <= |store.versions| && Shown(store.versions, since, device.our, device.handleOf(base.peer), base)
      modifies store
      ensures store.Valid() && old(store.versions) <= store.versions
      ensures step.Some? ==>
                var s := step.value;
                && Took(device, 0, old(store.versions), store.versions, s) && Fires(device, 0, store.versions[s.at], s.event.tx)
                && s.event.tx == Retire(base, handshake, prekeys) && s.event.fault == fault
                && r == match Repeatable(fault) case Ok(_) => Ok(()) case Err(e) => Err(e)
      ensures step.None? ==> r.Err?
      ensures r.Err? ==> RecordFailed(device, store.versions, since, unresolved, base.peer, prekeys, step, r.error)
    {
      hide Storable, LegacyUnconfirmed, NoPending, Formed, Fires, Took, RecordFailed, Shown, Obliged, RetirementMoved;
      step := None;
      ghost var before := store.versions;
      var (p, handle) := (base.peer, device.handleOf(base.peer));
      var tx := store.Begin();
      if Lookup(tx, SessionKey(p)) != Some(SessionRecord(base)) || Lookup(tx, HandleKey(handle)) != Some(HandleRecord(p)) {
        MovedRetirement(device, store.contents, base, prekeys);
        RecordSessionFails(device, before, store.versions, since, unresolved, p, prekeys, base, Conflicting(RecordChanged));
        return Err(Conflicting(RecordChanged)), step;
      }
      if HandshakeKey(p) in tx || ProvisionalKey(handle) in tx {
        MovedRetirement(device, store.contents, base, prekeys);
        RecordSessionFails(device, before, store.versions, since, unresolved, p, prekeys, base, SessionNotRetirable);
        return Err(SessionNotRetirable), step;
      }
      if Lookup(tx, PrekeysKey) != Some(PrekeyRecord(prekeys)) {
        MovedRetirement(device, store.contents, base, prekeys);
        RecordSessionFails(device, before, store.versions, since, unresolved, p, prekeys, base, Conflicting(RecordChanged));
        return Err(Conflicting(RecordChanged)), step;
      }
      ghost var found := store.versions;
      assert found[loaded] == before[loaded] && found[listed] == before[listed];
      RetireTook(device, before, found, Event(Retire(base, handshake, prekeys), fault, loaded, listed));
      var left := (tx - {SessionKey(p), HandleKey(handle)})[ProvisionalKey(handle) := ProvisionalRecord(p, handshake)];
      var committed := store.Commit(left, fault);
      step := Some(Step(|store.versions| - 2, Event(Retire(base, handshake, prekeys), fault, loaded, listed)));
      RecordCommitFails(device, store.versions, since, unresolved, p, prekeys, step.value);
      return match AsRepeatable(committed) case Ok(_) => Ok(()) case Err(e) => Err(e), step;
    }

    // ── Recovery ──────────────────────────────────────────────────────────────

    /** Whether one read shows the legacy session retired and none of the
        artifacts stored. */
    method ReadRetiredSince(store: EncryptedStore, handle: nat, peer: Identity, artifacts: seq<StoreKey>) returns (retired: bool)
      requires store.Valid()
      modifies store
      ensures store.Valid() && old(store.versions) <= store.versions
      ensures retired == RetiredSince(store.contents, handle, peer, artifacts)
    {
      var tx := store.Begin();
      var keys := [SessionKey(peer), HandleKey(handle)] + artifacts;
      for n := 0 to |keys|
        invariant store.Valid() && store.contents == tx && old(store.versions) <= store.versions
        invariant forall k :: 0 <= k < n ==> keys[k] !in tx
      {
        if keys[n] in tx {
          if n >= 2 {
            assert artifacts[n - 2] in store.contents;
          }
          return false;
        }
      }
      assert keys[0] !in tx && keys[1] !in tx;
      assert forall k :: 0 <= k < |artifacts| ==> artifacts[k] == keys[k + 2];
      return ProvisionalKey(handle) in tx && tx[ProvisionalKey(handle)].ProvisionalRecord?
             && tx[ProvisionalKey(handle)].peer == peer;
    }

    /** Whether any artifact of an unresolved commit is stored: one read each, in
        order. */
    method ReadArtifacts(store: EncryptedStore, artifacts: seq<StoreKey>)
      returns (r: Result<bool, MessagingError>, ghost at: seq<nat>)
      requires store.Valid()
      modifies store
      ensures store.Valid() && old(store.versions) <= store.versions
      ensures r.Ok? ==>
                && |at| == |artifacts|
                && (forall k :: 0 <= k < |at| ==> |old(store.versions)| - 1 <= at[k] < |store.versions|)
                && (forall k, m :: 0 <= k <= m < |at| ==> at[k] <= at[m])
                && (r.value <==> exists k :: 0 <= k < |at| && artifacts[k] in store.versions[at[k]])
      ensures r.Err? ==> r.error == StoreFailure && ArtifactUnreadable(store.versions, |old(store.versions)|, artifacts)
    {
      at := [];
      var committed := false;
      for n := 0 to |artifacts|
        invariant store.Valid() && old(store.versions) <= store.versions && |at| == n
        invariant forall k :: 0 <= k < n ==> |old(store.versions)| - 1 <= at[k] < |store.versions|
        invariant forall k, m :: 0 <= k <= m < n ==> at[k] <= at[m]
        invariant committed <==> exists k :: 0 <= k < n && artifacts[k] in store.versions[at[k]]
      {
        ghost var before := store.versions;
        var record := store.Get(artifacts[n]);
        if record == Some(Unreadable) {
          assert Within(store.versions, |old(store.versions)|, |store.versions| - 1);
          return Err(StoreFailure), at;
        }
        assert forall k :: 0 <= k < n ==> store.versions[at[k]] == before[at[k]];
        at := at + [|store.versions| - 1];
        committed := committed || record.Some?;
      }
      return Ok(committed), at;
    }

    /** Reports what the store holds for an unresolved session, and lets it
        continue from there. */
    method Recover(store: EncryptedStore, handle: nat)
      returns (r: Result<Option<Recovery>, MessagingError>, ghost at: seq<nat>, ghost load: nat)
      requires store.Valid()
      modifies this, store
      ensures store.Valid() && old(store.versions) <= store.versions
      ensures handle !in old(unresolved) ==> r == Ok(None) && unchanged(this) && unchanged(store)
      ensures handle in old(unresolved) ==> r != Ok(None)
      ensures r.Err? ==> unresolved == old(unresolved)
      ensures r.Ok? && r.value.Some? ==>
                var u := old(unresolved)[handle];
                && unresolved == old(unresolved) - {handle}
                && r.value.value.attempted == u.attempted
                && |at| == |u.artifacts| && load < |store.versions|
                && (forall k :: 0 <= k < |at| ==> at[k] < |store.versions|)
                && (forall i :: 0 <= i < |old(store.versions)| - 1 ==> ReadsAfter(store.versions, i, at, load))
                && (!r.value.value.artifactCommitted ==> AnswersLost(store.versions, u, handle, at, load))
                && (r.value.value.artifactCommitted ==>
                      exists k :: 0 <= k < |at| && u.artifacts[k] in store.versions[at[k]])
      ensures r.Ok? && r.value.Some? ==>
                StoredAt(store.versions, |old(store.versions)|, device.our, handle, r.value.value.stored)
      ensures r.Err? ==> RecoverFailed(device, store.versions, |old(store.versions)|, old(unresolved)[handle], handle, r.error)
    {
      hide LoadFailed, Shown, NotRetired, StoredAt, RetiredSince, ArtifactUnreadable;
      at, load := [], 0;
      ghost var since := |store.versions|;
      if handle !in unresolved {
        return Ok(None), at, load;
      }
      var u := unresolved[handle];
      var read;
      read, at := ReadArtifacts(store, u.artifacts);
      if read.Err? {
        assert RecoverFailed(device, store.versions, since, u, handle, StoreFailure);
        return Err(read.error), at, load;
      }
      var committed := read.value;
      ghost var mid := store.versions;
      var session, handleRead := LoadSession(store, handle);
      ghost var loaded := store.versions;
      load := handleRead;
      if session.Ok? {
        StoredIs(store.versions, |mid|, since, device.our, handle, session.value.State());
        unresolved := unresolved - {handle};
        return Ok(Some(Recovery(u.attempted, session.value.generation, committed))), at, load;
      }
      if session.error != NoSession {
        RecoverLoadFails(device, loaded, store.versions, |mid|, since, u, handle, session.error);
        return Err(session.error), at, load;
      }
      if !u.createsSession {
        if u.stagedOnLegacy.None? {
          LegacyGone(store.versions, since, u, handle);
          RecoverLoadFails(device, loaded, store.versions, |mid|, since, u, handle, NoSession);
          return Err(NoSession), at, load;
        }
        var retired := ReadRetiredSince(store, handle, u.stagedOnLegacy.value, u.artifacts);
        load := |store.versions| - 1;
        if !retired {
          LegacyGone(store.versions, since, u, handle);
          RecoverLoadFails(device, loaded, store.versions, |mid|, since, u, handle, NoSession);
          return Err(NoSession), at, load;
        }
      }
      NothingStored(loaded, store.versions, |mid|, since, device.our, handle);
      unresolved := unresolved - {handle};
      return Ok(Some(Recovery(u.attempted, 0, false))), at, load;
    }
  }
}

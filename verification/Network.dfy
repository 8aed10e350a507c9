/** The network layer on top of `Messenger`: what it acknowledges, and what it
    sends receipts for. */
module NetworkLayer {
  import opened Prelude
  import opened Bytes
  import opened SymbolicKeys
  import opened StoreRecords
  import opened ConditionalWrites
  import opened Storage
  import opened MessengerModel
  import opened MessengerInvariant
  import opened MessengerRuns
  import opened MessengerGuarantees
  import opened MessengerRecovery
  import opened MessengerBatches
  import opened Messaging
  import opened MessagingReports
  import opened MessengerCauses
  import opened PendingLists
  import opened EndToEnd
  import opened EndToEndRuns
  import W = WireCodec
  import opened RatchetFields
  import opened NetworkRules

  class NetworkMessenger {
    const core: Messenger
    const digest: MessageId -> Key32
    const retransmitAfter: nat
    const reading: Reading
    /** When each pending message was last handed to the relay. */
    var lastSent: map<MessageId, nat>
    /** And each handshake. */
    var handshakeSent: map<Record, nat>

    constructor (core: Messenger, digest: MessageId -> Key32, reading: Reading, retransmitAfter: nat)
      ensures this.core == core && this.digest == digest && this.reading == reading
      ensures this.retransmitAfter == retransmitAfter && lastSent == map[] && handshakeSent == map[]
    {
      this.core, this.digest, this.reading, this.retransmitAfter := core, digest, reading, retransmitAfter;
      lastSent, handshakeSent := map[], map[];
    }

    method CommitReceipt(store: EncryptedStore, handle: nat, ghost p: Identity, id: MessageId, round: U64)
      returns (r: Result<SendOutcome, MessagingError>, ghost steps: seq<Step>)
      requires store.Valid() && (Consistent(store.versions, handle, p) ==> Held(store.versions, p, id))
      modifies core, store
      ensures store.Valid() && old(store.versions) <= store.versions
      ensures AllKeepRule(core.device, handle, p, old(store.versions), store.versions, steps)
      ensures forall s :: s in steps ==>
                s.event.tx.Send? && s.event.tx.plaintext == Receipt([id]) && s.event.tx.client == W.ReceiptId(digest(id), round)
      ensures |steps| <= 1
      ensures r.Ok? ==> Told(store.versions, |old(store.versions)|, handle, W.ReceiptId(digest(id), round), r.value)
                        && core.unresolved == old(core.unresolved)
      ensures r.Err? ==> SendingFailed(core.device, store.versions, |old(store.versions)|, old(core.unresolved), handle,
                                       W.ReceiptId(digest(id), round), steps, r.error)
    {
      hide Took, SendDone, ReportsPrior, KeepsRule, Consistent, Held, SendFailed, Told, ReceiptClient;
      var fault: Fault := *;
      var nonce: nat := *;
      ghost var (before, was) := (store.versions, core.unresolved);
      ghost var step, prior;
      ReceiptIdIsReceipts(digest(id), round);
      r, step, prior := core.Send(store, handle, W.ReceiptId(digest(id), round), Receipt([id]), nonce, fault);
      if step.Some? {
        ReceiptKeepsRule(core.device, handle, p, before, store.versions, step.value, id);
      }
      OneKeepsRule(core.device, handle, p, before, store.versions, step);
      steps := Taken(step);
      if r.Ok? {
        SendTells(core.device, before, store.versions, was, core.unresolved, handle, W.ReceiptId(digest(id), round), step, prior, r);
      } else {
        SendingFails(core.device, store.versions, |before|, was, handle, W.ReceiptId(digest(id), round), step, r.error);
      }
    }

    /** The peer sent `id` again: if the first receipt already left, a new one is
        committed, at most one a minute. */
    method ReceiptAgain(store: EncryptedStore, handle: nat, ghost p: Identity, id: MessageId, minute: Minute)
      returns (r: Result<(), MessagingError>, ghost steps: seq<Step>)
      requires store.Valid() && (Consistent(store.versions, handle, p) ==> Held(store.versions, p, id))
      modifies core, store
      ensures store.Valid() && old(store.versions) <= store.versions
      ensures AllKeepRule(core.device, handle, p, old(store.versions), store.versions, steps)
      ensures var (first, again) := (W.ReceiptId(digest(id), 0), W.ReceiptId(digest(id), minute + 1));
              && (forall s :: s in steps ==>
                    && s.event.tx.Send? && s.event.tx.plaintext == Receipt([id])
                    && (s.event.tx.client == first
                        || (s.event.tx.client == again && LeftAlready(store.versions, |old(store.versions)|, handle, first))))
              && (r.Ok? ==> ReceiptRepeated(store.versions, |old(store.versions)|, handle, first, again))
              && (r.Err? ==> AgainFailed(core.device, store.versions, |old(store.versions)|, old(core.unresolved), handle, first,
                                         again, steps, r.error))
    {
      hide AllKeepRule, Consistent, Held, Told, Receipted, SendingFailed, LeftAlready;
      ghost var (before, was) := (store.versions, core.unresolved);
      var first;
      first, steps := CommitReceipt(store, handle, p, id, 0);
      if first.Err? {
        return Err(first.error), steps;
      }
      ghost var mid := store.versions;
      if first.value.Repeated? && first.value.status.Acknowledged? {
        assert Consistent(mid, handle, p) ==> Held(mid, p, id) by {
          if Consistent(mid, handle, p) {
            ConsistentBefore(before, mid, handle, p);
            HeldLater(before, mid, p, id);
          }
        }
        var again;
        ghost var more;
        again, more := CommitReceipt(store, handle, p, id, minute + 1);
        AllKeepTogether(core.device, handle, p, before, mid, store.versions, steps, more);
        ToldLeft(mid, store.versions, |before|, handle, W.ReceiptId(digest(id), 0), first.value);
        steps := steps + more;
        if again.Err? {
          SendingFailedLater(core.device, store.versions, store.versions, |mid|, |before|, was, handle,
                             W.ReceiptId(digest(id), minute + 1), more, steps, again.error);
          return Err(again.error), steps;
        }
        ToldIsReceipted(store.versions, |mid|, handle, W.ReceiptId(digest(id), minute + 1), again.value);
      }
      TellsRepeated(mid, store.versions, |before|, handle, W.ReceiptId(digest(id), 0), W.ReceiptId(digest(id), minute + 1), first.value);
      return Ok(()), steps;
    }

    /** Acknowledges, one by one, what a receipt lists. */
    method AcknowledgeListed(store: EncryptedStore, handle: nat, ghost p: Identity, m: IncomingMessage)
      returns (r: Result<nat, MessagingError>, ghost steps: seq<Step>)
      requires store.Valid() && m.plaintext.Receipt?
      requires Consistent(store.versions, handle, p) ==> ReadIncoming(store.versions, p, m)
      modifies store
      ensures store.Valid() && old(store.versions) <= store.versions
      ensures AllKeepRule(core.device, handle, p, old(store.versions), store.versions, steps) && AllDischarge(m, steps)
      ensures forall s :: s in steps ==> !s.event.tx.AckIn?
      ensures r.Ok? ==> AllCleared(store.versions, handle, m) && r.value == |steps|
      ensures r.Err? ==> ClearingFailed(store.versions, |old(store.versions)|, handle, m, steps, r.error)
    {
      hide KeepsRule, Consistent, ReadIncoming, Took, Cleared, HandleShowed, UpkeepFailed, KeepingFailed;
      ghost var before := store.versions;
      steps := [];
      var delivered := 0;
      for n := 0 to |m.plaintext.ids|
        invariant store.Valid() && before <= store.versions
        invariant AllKeepRule(core.device, handle, p, before, store.versions, steps) && AllDischarge(m, steps)
        invariant delivered == |steps| && forall s :: s in steps ==> !s.event.tx.AckIn?
        invariant forall i :: 0 <= i < n ==> Cleared(store.versions, handle, m.plaintext.ids[i])
      {
        var id := m.plaintext.ids[n];
        var fault: Fault := *;
        ghost var mid := store.versions;
        ReadIncomingLater(before, mid, handle, p, m);
        var acknowledged;
        ghost var step;
        acknowledged, step := core.AcknowledgeOutgoing(store, handle, id, fault);
        if step.Some? {
          ListedKeepsRule(core.device, handle, p, mid, store.versions, step.value, m);
        }
        OneKeepsRule(core.device, handle, p, mid, store.versions, step);
        AllKeepTogether(core.device, handle, p, before, mid, store.versions, steps, Taken(step));
        steps := steps + Taken(step);
        if acknowledged.Err? {
          KeepingFails(UpkeepAckOut, store.versions, |mid|, handle, id, step, acknowledged.error);
          KeepingFailedLater(UpkeepAckOut, store.versions, store.versions, |mid|, |before|, handle, id, Taken(step), steps,
                             acknowledged.error);
          assert id in m.plaintext.ids;
          return Err(acknowledged.error), steps;
        }
        ghost var owner :| HandleShowed(store.versions, handle, owner) && OutboxKey(owner, id) !in store.contents;
        ClearedNow(store.versions, handle, owner, id);
        forall i | 0 <= i < n
          ensures Cleared(store.versions, handle, m.plaintext.ids[i])
        {
          ClearedLater(mid, store.versions, handle, m.plaintext.ids[i]);
        }
        if acknowledged.value {
          delivered := delivered + 1;
        }
      }
      return Ok(delivered), steps;
    }

    /** Marks the message itself as processed. */
    method MarkRead(store: EncryptedStore, handle: nat, ghost p: Identity, m: IncomingMessage)
      returns (r: Result<(), MessagingError>, ghost steps: seq<Step>)
      requires store.Valid() && !m.plaintext.Text?
      modifies store
      ensures store.Valid() && old(store.versions) <= store.versions
      ensures AllKeepRule(core.device, handle, p, old(store.versions), store.versions, steps) && AllDischarge(m, steps)
      ensures |steps| <= 1
      ensures r.Ok? ==> ReadMarked(store.versions, handle, m.id)
      ensures r.Err? ==> KeepingFailed(UpkeepAckIn, store.versions, |old(store.versions)|, handle, m.id, steps, r.error)
    {
      hide KeepsRule, Took, HandleShowed, UpkeepFailed, ReadMarked;
      ghost var before := store.versions;
      var fault: Fault := *;
      var acknowledged;
      ghost var step;
      acknowledged, step := core.AcknowledgeIncoming(store, handle, m.id, fault);
      if step.Some? {
        ReadKeepsRule(core.device, handle, p, before, store.versions, step.value);
      }
      OneKeepsRule(core.device, handle, p, before, store.versions, step);
      if acknowledged.Err? {
        KeepingFails(UpkeepAckIn, store.versions, |before|, handle, m.id, step, acknowledged.error);
        return Err(acknowledged.error), Taken(step);
      }
      ghost var owner :| HandleShowed(store.versions, handle, owner) && SeenKey(owner, m.id) in store.contents
                         && InboxKey(owner, m.id) !in store.contents;
      ReadMarkedNow(store.versions, handle, m.id, owner);
      return Ok(()), Taken(step);
    }

    /** Acts on one accepted message. A text stays for the application; a receipt
        stays until everything it lists is acknowledged. */
    method Settle(store: EncryptedStore, handle: nat, ghost p: Identity, m: IncomingMessage)
      returns (r: Result<(), MessagingError>, ghost steps: seq<Step>)
      requires store.Valid() && (Consistent(store.versions, handle, p) ==> ReadIncoming(store.versions, p, m))
      modifies core, store
      ensures store.Valid() && old(store.versions) <= store.versions
      ensures AllKeepRule(core.device, handle, p, old(store.versions), store.versions, steps)
      ensures AllDischarge(m, steps) && ReadLast(steps)
      ensures r.Ok? || (exists s :: s in steps && s.event.tx.AckIn?) ==> AllCleared(store.versions, handle, m)
      ensures r.Ok? ==> Settled(store.versions, handle, W.ReceiptId(digest(m.id), 0), m) && core.unresolved == old(core.unresolved)
      ensures r.Err? ==> SettleFailed(core.device, store.versions, |old(store.versions)|, old(core.unresolved), handle,
                                      W.ReceiptId(digest(m.id), 0), m, steps, r.error)
    {
      hide AllKeepRule, Consistent, ReadIncoming, Cleared, Receipted, ReadMarked, Told, SendingFailed, KeepingFailed, ReceiptClient;
      ghost var (before, was) := (store.versions, core.unresolved);
      var first: Result<(), MessagingError>;
      if m.plaintext.Receipt? {
        var listed;
        listed, steps := AcknowledgeListed(store, handle, p, m);
        first := if listed.Ok? then Ok(()) else Err(listed.error);
      } else if m.plaintext.Unknown? {
        first, steps := Ok(()), [];
        NoStepsKeepRule(core.device, handle, p, before);
      } else {
        assert Consistent(before, handle, p) ==> Held(before, p, m.id) by {
          if Consistent(before, handle, p) {
            ReadIncomingIsHeld(before, handle, p, m);
          }
        }
        var committed;
        committed, steps := CommitReceipt(store, handle, p, m.id, 0);
        ReceiptIdIsReceipts(digest(m.id), 0);
        if committed.Ok? {
          ToldIsReceipted(store.versions, |before|, handle, W.ReceiptId(digest(m.id), 0), committed.value);
        }
        first := if committed.Ok? then Ok(()) else Err(committed.error);
      }
      if first.Err? || m.plaintext.Text? {
        return first, steps;
      }
      ghost var mid := store.versions;
      ghost var last;
      r, last := MarkRead(store, handle, p, m);
      AllClearedLater(mid, store.versions, handle, m);
      AllKeepTogether(core.device, handle, p, before, mid, store.versions, steps, last);
      steps := steps + last;
      if m.plaintext.Opening? {
        ReceiptedLater(mid, store.versions, handle, W.ReceiptId(digest(m.id), 0));
      }
      if r.Err? {
        KeepingFailedLater(UpkeepAckIn, store.versions, store.versions, |mid|, |before|, handle, m.id, last, steps, r.error);
      }
    }

    /** Settles everything still in the peer's inbox, oldest first. */
    method SettleInbox(store: EncryptedStore, handle: nat, ghost p: Identity)
      returns (r: Result<(), MessagingError>, ghost settled: seq<IncomingMessage>, ghost steps: seq<Step>)
      requires store.Valid()
      modifies core, store
      ensures store.Valid() && old(store.versions) <= store.versions
      ensures AllKeepRule(core.device, handle, p, old(store.versions), store.versions, steps)
      ensures r.Ok? ==> forall m :: m in settled ==> Settled(store.versions, handle, W.ReceiptId(digest(m.id), 0), m)
      ensures r.Ok? ==> exists owner, listed ::
                HandleShowed(store.versions, handle, owner) && Within(store.versions, |old(store.versions)|, listed)
                && GatheredAt(store.versions, owner, listed, settled)
      ensures r.Ok? ==> core.unresolved == old(core.unresolved)
      ensures r.Err? ==> InboxFailed(core.device, digest, store.versions, |old(store.versions)|, old(core.unresolved), handle,
                                     steps, r.error)
    {
      hide AllKeepRule, Consistent, ReadIncoming, AllCleared, GatheredIncoming, HandleShowed, GatheredAt, InboxListFailed, Settled,
           SettleFailed, ReadOnHandle, InboxIds;
      ghost var (before, was) := (store.versions, core.unresolved);
      var pending;
      ghost var owner, listed;
      pending, owner, listed := ListIncoming(core, store, handle);
      ghost var read := store.versions;
      NoStepsKeepRule(core.device, handle, p, before);
      AllKeepLater(core.device, handle, p, before, before, before, read, []);
      settled, steps := [], [];
      if pending.Err? {
        return Err(pending.error), settled, steps;
      }
      for n := 0 to |pending.value|
        invariant store.Valid() && read <= store.versions
        invariant AllKeepRule(core.device, handle, p, before, store.versions, steps)
        invariant core.unresolved == was
        invariant forall i :: 0 <= i < n ==>
                    Settled(store.versions, handle, W.ReceiptId(digest(pending.value[i].id), 0), pending.value[i])
      {
        ghost var mid := store.versions;
        var m := pending.value[n];
        PendingIsRead(read, mid, handle, p, owner, InboxIds(read[listed].Keys, owner), pending.value, m);
        var done;
        ghost var more;
        done, more := Settle(store, handle, p, m);
        AllKeepTogether(core.device, handle, p, before, mid, store.versions, steps, more);
        steps := steps + more;
        if done.Err? {
          SettleFailedLater(core.device, store.versions, store.versions, |mid|, |before|, was, handle, W.ReceiptId(digest(m.id), 0), m,
                            more, steps, done.error);
          ListedIsRead(read, store.versions, handle, owner, InboxIds(read[listed].Keys, owner), pending.value, m);
          return Err(done.error), settled, steps;
        }
        forall i | 0 <= i < n
          ensures Settled(store.versions, handle, W.ReceiptId(digest(pending.value[i].id), 0), pending.value[i])
        {
          SettledLater(mid, store.versions, handle, W.ReceiptId(digest(pending.value[i].id), 0), pending.value[i]);
        }
      }
      settled := pending.value;
      HandleShownLater(read, store.versions, handle, owner);
      GatheredWhen(read, owner, listed, settled);
      GatheredLater(read, store.versions, owner, listed, settled);
      return Ok(()), settled, steps;
    }

    // ── Publishing ──────────────────────────────────────────────────────────

    /** The handshake stored with the session under the handle. */
    method InitialOutbound(store: EncryptedStore, handle: nat) returns (r: Result<Option<Record>, MessagingError>)
      requires store.Valid()
      modifies store
      ensures store.Valid() && old(store.versions) <= store.versions
      ensures r.Ok? ==> OutboundShown(store.versions, |old(store.versions)|, handle, r.value) && r.value != Some(Unreadable)
      ensures r.Err? ==> OutboundFailed(store.versions, |old(store.versions)|, handle, r.error)
    {
      hide OutboundShown, HandleFailed, HandleError;
      ghost var since := |store.versions|;
      var peer := core.RequirePeer(store, handle);
      ghost var k := |store.versions| - 1;
      if peer.Err? {
        HandleFails(store.versions, since, handle, k, peer.error);
        return Err(peer.error);
      }
      ghost var read := store.versions;
      var stored := store.Get(HandshakeKey(peer.value));
      assert store.versions[k] == read[k];
      OutboundIsShown(store.versions, since, handle, peer.value, k, stored);
      return if stored == Some(Unreadable) then Err(StoreFailure) else Ok(stored);
    }

    /** Whether the session under the handle has accepted a message of its peer. */
    method Confirmed(store: EncryptedStore, handle: nat) returns (r: Result<bool, MessagingError>)
      requires store.Valid()
      modifies store
      ensures store.Valid() && old(store.versions) <= store.versions
      ensures r.Ok? ==> ConfirmedShown(store.versions, |old(store.versions)|, core.device.our, handle, r.value)
      ensures r.Err? ==> LoadFailed(store.versions, |old(store.versions)|, core.device.our, handle, r.error)
    {
      hide Shown, LoadFailed;
      var session, _ := core.LoadSession(store, handle);
      if session.Err? {
        return Err(session.error);
      }
      return Ok(Established(session.value.State()));
    }

    /** Hands the handshake stored with an unconfirmed session to the relay, if it
        is due. */
    method PublishHandshake(store: EncryptedStore, handle: nat, now: nat, takes: Post -> bool)
      returns (r: Result<Option<Record>, PublishError>)
      requires store.Valid()
      modifies this, store
      ensures store.Valid() && old(store.versions) <= store.versions && unchanged(`lastSent)
      ensures match r
              case Ok(Some(record)) =>
                && ConfirmedShown(store.versions, |old(store.versions)|, core.device.our, handle, false)
                && OutboundShown(store.versions, |old(store.versions)|, handle, Some(record))
                && Due(old(handshakeSent), retransmitAfter, record, now) && takes(PostHandshake(record))
                && handshakeSent == old(handshakeSent)[record := now]
              case Ok(None) =>
                && unchanged(`handshakeSent)
                && NoHandshakeDue(store.versions, |old(store.versions)|, core.device.our, handle, old(handshakeSent),
                                  retransmitAfter, now)
              case Err(e) =>
                && unchanged(`handshakeSent)
                && HandshakeUnpublished(store.versions, |old(store.versions)|, core.device.our, handle, old(handshakeSent),
                                        retransmitAfter, now, takes, e)
    {
      hide ConfirmedShown, OutboundShown, OutboundFailed, LoadFailed;
      ghost var before := store.versions;
      var confirmed := Confirmed(store, handle);
      if confirmed.Err? {
        return Err(FromCore(confirmed.error));
      }
      if confirmed.value {
        return Ok(None);
      }
      ghost var mid := store.versions;
      var stored := InitialOutbound(store, handle);
      ConfirmedLater(mid, store.versions, |before|, |before|, core.device.our, handle, false);
      if stored.Err? {
        OutboundFailedLater(store.versions, store.versions, |mid|, |before|, handle, stored.error);
        return Err(FromCore(stored.error));
      }
      OutboundLater(store.versions, store.versions, |mid|, |before|, handle, stored.value);
      if stored.value.None? || !Due(handshakeSent, retransmitAfter, stored.value.value, now) {
        return Ok(None);
      }
      var record := stored.value.value;
      if !takes(PostHandshake(record)) {
        return Err(NotTaken(PostHandshake(record)));
      }
      handshakeSent := handshakeSent[record := now];
      return Ok(Some(record));
    }

    /** The relay took a receipt of our own: nobody will acknowledge it. */
    method ForgetReceipt(store: EncryptedStore, handle: nat, ghost p: Identity, m: OutgoingMessage)
      returns (r: Result<bool, MessagingError>, ghost steps: seq<Step>)
      requires store.Valid() && ReceiptClient(m.client)
      requires Consistent(store.versions, handle, p) ==> ReadOutgoing(store.versions, p, m)
      modifies store
      ensures store.Valid() && old(store.versions) <= store.versions
      ensures AllKeepRule(core.device, handle, p, old(store.versions), store.versions, steps)
      ensures forall s :: s in steps ==> s.event.tx.AckOut? && s.event.tx.id == m.id
      ensures r.Ok? ==> Cleared(store.versions, handle, m.id)
      ensures r.Err? ==> KeepingFailed(UpkeepAckOut, store.versions, |old(store.versions)|, handle, m.id, steps, r.error)
    {
      hide KeepsRule, Took, Consistent, ReadOutgoing, UpkeepFailed, KeepingFailed, Cleared, HandleShowed;
      ghost var before := store.versions;
      var fault: Fault := *;
      ghost var step;
      r, step := core.AcknowledgeOutgoing(store, handle, m.id, fault);
      if step.Some? {
        OwnKeepsRule(core.device, handle, p, before, store.versions, step.value, m);
      }
      OneKeepsRule(core.device, handle, p, before, store.versions, step);
      steps := Taken(step);
      if r.Err? {
        KeepingFails(UpkeepAckOut, store.versions, |before|, handle, m.id, step, r.error);
      } else {
        ghost var owner :| HandleShowed(store.versions, handle, owner) && OutboxKey(owner, m.id) !in store.contents;
        ClearedNow(store.versions, handle, owner, m.id);
      }
    }

    /** Hands one pending message to the relay, if it is due; a receipt of our own
        is forgotten once the relay took it. */
    method PublishOne(store: EncryptedStore, handle: nat, ghost p: Identity, m: OutgoingMessage, now: nat, takes: Post -> bool)
      returns (r: Result<(), PublishError>, posted: bool, ghost steps: seq<Step>)
      requires store.Valid() && (Consistent(store.versions, handle, p) ==> ReadOutgoing(store.versions, p, m))
      modifies this, store
      ensures store.Valid() && old(store.versions) <= store.versions && unchanged(`handshakeSent)
      ensures AllKeepRule(core.device, handle, p, old(store.versions), store.versions, steps)
      ensures forall s :: s in steps ==> s.event.tx.AckOut? && s.event.tx.id == m.id && ReceiptClient(m.client)
      ensures posted <==> Due(old(lastSent), retransmitAfter, m.id, now) && takes(PostMessage(m))
      ensures lastSent == if posted then old(lastSent)[m.id := now] else old(lastSent)
      ensures !posted ==>
                && unchanged(store) && steps == []
                && r == if Due(old(lastSent), retransmitAfter, m.id, now) then Err(NotTaken(PostMessage(m))) else Ok(())
      ensures posted && !ReceiptClient(m.client) ==> r.Ok? && unchanged(store) && steps == []
      ensures posted && ReceiptClient(m.client) && r.Ok? ==> Cleared(store.versions, handle, m.id)
      ensures posted && r.Err? ==>
                && r.error.FromCore?
                && KeepingFailed(UpkeepAckOut, store.versions, |old(store.versions)|, handle, m.id, steps, r.error.error)
    {
      hide AllKeepRule, Consistent, ReadOutgoing, Cleared, KeepingFailed, ReceiptClient;
      posted, steps := false, [];
      NoStepsKeepRule(core.device, handle, p, store.versions);
      if !Due(lastSent, retransmitAfter, m.id, now) {
        return Ok(()), posted, steps;
      }
      if !takes(PostMessage(m)) {
        return Err(NotTaken(PostMessage(m))), posted, steps;
      }
      lastSent, posted := lastSent[m.id := now], true;
      if !ReceiptClient(m.client) {
        return Ok(()), posted, steps;
      }
      var forgotten;
      forgotten, steps := ForgetReceipt(store, handle, p, m);
      return if forgotten.Err? then Err(FromCore(forgotten.error)) else Ok(()), posted, steps;
    }

    /** Hands every due pending message of the peer to the relay. */
    method PublishMessages(store: EncryptedStore, handle: nat, ghost p: Identity, now: nat, takes: Post -> bool)
      returns (r: Result<(), PublishError>, published: seq<OutgoingMessage>, ghost steps: seq<Step>)
      requires store.Valid()
      modifies this, store
      ensures store.Valid() && old(store.versions) <= store.versions && unchanged(`handshakeSent)
      ensures AllKeepRule(core.device, handle, p, old(store.versions), store.versions, steps)
      ensures forall m :: m in published ==> Due(old(lastSent), retransmitAfter, m.id, now) && takes(PostMessage(m))
      ensures Consistent(store.versions, handle, p) ==> forall m :: m in published ==> ReadOutgoing(store.versions, p, m)
      ensures ForgetOwn(published, steps) && Marked(old(lastSent), lastSent, published, now)
      ensures r.Ok? ==>
                && OutboxPublished(store.versions, |old(store.versions)|, handle, old(lastSent), retransmitAfter, published, now)
                && ReceiptsCleared(store.versions, handle, published)
      ensures r.Err? ==>
                PublishFailed(store.versions, |old(store.versions)|, handle, old(lastSent), retransmitAfter, now, takes, published,
                              steps, r.error)
    {
      hide AllKeepRule, Consistent, ReadOutgoing, GatheredOutgoing, HandleShowed, ForgetOwn, OutboxIds, OutboxListFailed, Marked,
           Published, KeepingFailed, PendingOnHandle, Cleared, OutboxPublished, ReceiptClient;
      ghost var (before, sent) := (store.versions, lastSent);
      var pending;
      ghost var owner, listed;
      pending, owner, listed := ListOutgoing(core, store, handle);
      ghost var read := store.versions;
      NoStepsKeepRule(core.device, handle, p, before);
      AllKeepLater(core.device, handle, p, before, before, before, read, []);
      published, steps := [], [];
      NothingForgotten();
      NothingMarked(lastSent, now);
      if pending.Err? {
        return Err(FromCore(pending.error)), published, steps;
      }
      ghost var rows := OutboxIds(read[listed].Keys, owner);
      for n := 0 to |pending.value|
        invariant store.Valid() && read <= store.versions && unchanged(`handshakeSent)
        invariant AllKeepRule(core.device, handle, p, before, store.versions, steps)
        invariant forall m :: m in published ==> m in pending.value && Due(sent, retransmitAfter, m.id, now) && takes(PostMessage(m))
        invariant ForgetOwn(published, steps) && Marked(sent, lastSent, published, now)
        invariant forall i :: 0 <= i < n ==>
                    Due(sent, retransmitAfter, pending.value[i].id, now) ==> Published(published, pending.value[i].id)
        invariant ReceiptsCleared(store.versions, handle, published)
      {
        ghost var (mid, marks) := (store.versions, lastSent);
        var m := pending.value[n];
        PublishedAreRead(read, mid, handle, p, owner, rows, pending.value, [m]);
        assert m in [m];
        NotDueYet(sent, lastSent, retransmitAfter, published, m.id, now);
        var done, posted;
        ghost var own;
        done, posted, own := PublishOne(store, handle, p, m, now, takes);
        AllKeepTogether(core.device, handle, p, before, mid, store.versions, steps, own);
        if posted {
          PostedToo(sent, marks, published, m, steps, own, retransmitAfter, now);
          ReceiptsClearedLater(mid, store.versions, handle, published);
          published := published + [m];
        } else {
          assert steps + own == steps;
        }
        steps := steps + own;
        if done.Err? {
          PublishedAreRead(read, store.versions, handle, p, owner, rows, pending.value, published);
          ListedIsPending(read, store.versions, handle, owner, rows, pending.value, m);
          if posted {
            KeepingFailedLater(UpkeepAckOut, store.versions, store.versions, |mid|, |before|, handle, m.id, own, steps, done.error.error);
            assert m in published;
          }
          return Err(done.error), published, steps;
        }
      }
      PublishedAreRead(read, store.versions, handle, p, owner, rows, pending.value, published);
      PublishedAll(read, store.versions, |before|, handle, sent, retransmitAfter, published, now, owner, listed, pending.value);
      return Ok(()), published, steps;
    }

    /** Hands over what is due of one peer: the handshake of an unconfirmed session
        first, then its pending messages. */
    method PublishPending(store: EncryptedStore, handle: nat, ghost p: Identity, now: nat, takes: Post -> bool)
      returns (r: Result<(), PublishError>, handshake: Option<Record>, published: seq<OutgoingMessage>, ghost steps: seq<Step>,
               ghost mid: seq<Contents>)
      requires store.Valid()
      modifies this, store
      ensures store.Valid() && old(store.versions) <= mid <= store.versions
      ensures AllKeepRule(core.device, handle, p, old(store.versions), store.versions, steps)
      ensures forall m :: m in published ==> Due(old(lastSent), retransmitAfter, m.id, now) && takes(PostMessage(m))
      ensures Consistent(store.versions, handle, p) ==> forall m :: m in published ==> ReadOutgoing(store.versions, p, m)
      ensures ForgetOwn(published, steps) && Marked(old(lastSent), lastSent, published, now)
      ensures handshakeSent == if handshake.Some? then old(handshakeSent)[handshake.value := now] else old(handshakeSent)
      ensures handshake.Some? ==>
                && ConfirmedShown(mid, |old(store.versions)|, core.device.our, handle, false)
                && OutboundShown(mid, |old(store.versions)|, handle, handshake)
                && Due(old(handshakeSent), retransmitAfter, handshake.value, now) && takes(PostHandshake(handshake.value))
      ensures r.Ok? ==>
                && (handshake.None? ==> NoHandshakeDue(mid, |old(store.versions)|, core.device.our, handle,
                                                       old(handshakeSent), retransmitAfter, now))
                && OutboxPublished(store.versions, |old(store.versions)|, handle, old(lastSent), retransmitAfter, published, now)
                && ReceiptsCleared(store.versions, handle, published)
      ensures r.Err? ==>
                || PublishFailed(store.versions, |old(store.versions)|, handle, old(lastSent), retransmitAfter, now, takes, published,
                                 steps, r.error)
                || (published == [] && handshake.None? &&
                      HandshakeUnpublished(mid, |old(store.versions)|, core.device.our, handle, old(handshakeSent), retransmitAfter,
                                           now, takes, r.error))
    {
      hide AllKeepRule, Consistent, ReadOutgoing, ForgetOwn, Marked, ConfirmedShown, OutboundShown, OutboxPublished, ReceiptsCleared,
           PublishFailed, LoadFailed, OutboundFailed;
      ghost var before := store.versions;
      published, steps, handshake := [], [], None;
      NoStepsKeepRule(core.device, handle, p, before);
      NothingForgotten();
      NothingMarked(lastSent, now);
      var first := PublishHandshake(store, handle, now, takes);
      mid := store.versions;
      AllKeepLater(core.device, handle, p, before, before, before, mid, []);
      if first.Err? {
        return Err(first.error), None, published, steps, mid;
      }
      handshake := first.value;
      r, published, steps := PublishMessages(store, handle, p, now, takes);
      AllKeepLater(core.device, handle, p, before, mid, store.versions, store.versions, steps);
      if r.Ok? {
        PublishedSince(store.versions, |mid|, |before|, handle, old(lastSent), retransmitAfter, published, now);
      } else {
        PublishFailedSince(store.versions, |mid|, |before|, handle, old(lastSent), retransmitAfter, now, takes, published,
                           steps, r.error);
      }
    }

    // ── Receiving ───────────────────────────────────────────────────────────

    /** Receives on the session under the handle, as part of a call that began with
        `before`. */
    method ReceiveOnSession(store: EncryptedStore, handle: nat, wire: MessageId, newDh: DhKey, ghost before: seq<Contents>)
      returns (r: Result<Received, MessagingError>, ghost receipt: Option<Step>)
      requires store.Valid() && before <= store.versions
      modifies core, store
      ensures store.Valid() && old(store.versions) <= store.versions
      ensures Answered(store.versions, handle, wire, r) && Remembered(old(core.unresolved), core.unresolved, r)
      ensures Performed(core.device, newDh, before, store.versions, handle, wire, None, receipt)
      ensures r.Err? ==>
                ReceiveFailed(core.device, store.versions, |old(store.versions)|, old(core.unresolved), handle, wire, newDh, receipt,
                              r.error)
    {
      hide Took, ReceiveDone, AnsweredFor, HandleShowed, ReceiveFailed, Named, Formed, Remembered, After, Reads;
      ghost var (read, was) := (store.versions, core.unresolved);
      var fault: Fault := *;
      r, receipt := core.Receive(store, handle, wire, newDh, fault);
      if receipt.Some? {
        ghost var s := receipt.value;
        TookWithinSince(core.device, newDh, before, read, store.versions, s);
        NamedLater(store.versions, store.versions, |read|, |before|, handle, s.event.tx.base.peer);
        TookIsFormed(core.device, newDh, read, store.versions, s);
        ReceiveRemembers(core.device, newDh, was, core.unresolved, handle, store.versions, store.versions[s.at], s.event, r);
      } else {
        assert Remembered(was, core.unresolved, r) by {
          NothingRemembered(was, r);
        }
      }
    }

    /** Accepts the first message of a handshake recorded when `j` was read, as part
        of a call that began with `before`. */
    method AcceptRecorded(store: EncryptedStore, q: Identity, handshake: InitiatorHandshake, wire: MessageId, newDh: DhKey,
                          newOneTime: DhKey, ghost before: seq<Contents>, ghost j: nat)
      returns (r: Result<Received, MessagingError>, ghost attempt: Option<Step>, ghost receipt: Option<Step>)
      requires store.Valid() && newDh < newOneTime && before <= store.versions && Within(store.versions, |before|, j)
      requires Lookup(store.versions[j], ProvisionalKey(core.device.handleOf(q))) == Some(ProvisionalRecord(q, handshake))
      modifies core, store
      ensures store.Valid() && old(store.versions) <= store.versions
      ensures Answered(store.versions, core.device.handleOf(q), wire, r) && Remembered(old(core.unresolved), core.unresolved, r)
      ensures Performed(core.device, newDh, before, store.versions, core.device.handleOf(q), wire, attempt, receipt)
      ensures r.Err? ==>
                AcceptFailed(core.device, store.versions, |old(store.versions)|, old(core.unresolved), q, handshake, wire, newDh,
                             attempt, receipt, r.error)
    {
      hide Took, ReceiveDone, AcceptDone, AnsweredFor, HandleShowed, AcceptFailed, Named, Formed, Remembered, After, Reads;
      ghost var (read, was, handle) := (store.versions, core.unresolved, core.device.handleOf(q));
      var fault: Fault := *;
      r, attempt, receipt := core.AcceptFirstMessage(store, q, handshake, wire, newDh, newOneTime, fault);
      if attempt.Some? {
        ghost var s := attempt.value;
        assert store.versions[j] == read[j];
        TookWithinSince(core.device, newDh, before, read, store.versions, s);
        TookIsFormed(core.device, newDh, read, store.versions, s);
        if receipt.None? {
          AcceptRemembers(core.device, was, core.unresolved, store.versions[s.at], s.event, r);
        }
      }
      if receipt.Some? {
        ghost var s := receipt.value;
        TookWithinSince(core.device, newDh, before, read, store.versions, s);
        NamedLater(store.versions, store.versions, |read|, |before|, handle, s.event.tx.base.peer);
        TookIsFormed(core.device, newDh, read, store.versions, s);
        ReceiveRemembers(core.device, newDh, was, core.unresolved, handle, store.versions, store.versions[s.at], s.event, r);
      } else if attempt.None? {
        NothingRemembered(was, r);
      }
    }

    /** Receives `wire` from the peer: on its session, or as the first message of
        the handshake recorded for it. */
    method ReceiveCommitted(store: EncryptedStore, p: Identity, wire: MessageId, newDh: DhKey, newOneTime: DhKey)
      returns (r: Result<Received, MessagingError>, ghost attempt: Option<Step>, ghost receipt: Option<Step>)
      requires store.Valid() && newDh < newOneTime
      modifies core, store
      ensures store.Valid() && old(store.versions) <= store.versions
      ensures Answered(store.versions, core.device.handleOf(p), wire, r) && Remembered(old(core.unresolved), core.unresolved, r)
      ensures Performed(core.device, newDh, old(store.versions), store.versions, core.device.handleOf(p), wire, attempt, receipt)
      ensures r.Err? ==>
                CommittedFailed(core.device, store.versions, |old(store.versions)|, old(core.unresolved), core.device.handleOf(p),
                                wire, newDh, attempt, receipt, r.error)
    {
      hide Took, TookWithin, ReceiveDone, AnsweredFor, HandleShowed, ReceiveFailed, CommittedFailed, Named, HandleError;
      attempt, receipt := None, None;
      ghost var (before, was) := (store.versions, core.unresolved);
      var handle := core.device.handleOf(p);
      var peer := core.RequirePeer(store, handle);
      ghost var (read, i) := (store.versions, |store.versions| - 1);
      if peer.Err? && peer.error != NoSession {
        UnreadableFails(core.device, store.versions, |before|, was, handle, i, i, wire, newDh, peer.error);
        return Err(peer.error), attempt, receipt;
      }
      if peer.Ok? {
        r, receipt := ReceiveOnSession(store, handle, wire, newDh, before);
        if r.Err? {
          assert store.versions[i] == read[i];
          OnSessionFails(core.device, store.versions, |read|, |before|, was, handle, peer.value, i, wire, newDh, receipt, r.error);
        }
        return;
      }
      var recorded := store.Get(ProvisionalKey(handle));
      ghost var (seen, j) := (store.versions, |store.versions| - 1);
      assert seen[i] == read[i];
      match recorded
      case None =>
        r, receipt := ReceiveOnSession(store, handle, wire, newDh, before);
        assert store.versions[i] == read[i] && store.versions[j] == seen[j];
        if r.Err? {
          UnannouncedFails(core.device, store.versions, |seen|, |before|, was, handle, i, j, wire, newDh, receipt, r.error);
        }
      case Some(ProvisionalRecord(q, handshake)) =>
        // Handshakes are recorded under their peer's own handle.
        if core.device.handleOf(q) != handle {
          AnnouncedFails(core.device, store.versions, |seen|, |before|, was, handle, i, j, q, handshake, wire, newDh, attempt, receipt,
                         InconsistentStore);
          return Err(InconsistentStore), attempt, receipt;
        }
        r, attempt, receipt := AcceptRecorded(store, q, handshake, wire, newDh, newOneTime, before, j);
        assert store.versions[i] == read[i] && store.versions[j] == seen[j];
        if r.Err? {
          AnnouncedFails(core.device, store.versions, |seen|, |before|, was, handle, i, j, q, handshake, wire, newDh, attempt, receipt,
                         r.error);
        }
      case Some(_) =>
        r := Err(if recorded == Some(Unreadable) then StoreFailure else InvalidRecord);
        UnreadableFails(core.device, store.versions, |before|, was, handle, i, j, wire, newDh, r.error);
    }

    /** Acts on what a receive answered: a message accepted is settled, for a
        repeated one its receipt is seen to. */
    method ActOn(store: EncryptedStore, handle: nat, ghost p: Identity, wire: MessageId, received: Received, minute: Minute)
      returns (fate: Fate, ghost steps: seq<Step>)
      requires store.Valid() && Answered(store.versions, handle, wire, Ok(received))
      modifies core, store
      ensures store.Valid() && old(store.versions) <= store.versions && !fate.Keep?
      ensures AllKeepRule(core.device, handle, p, old(store.versions), store.versions, steps)
      ensures fate.Discard? ==> ReceivedFor(digest, store.versions, |old(store.versions)|, handle, wire, minute, received)
      ensures fate.Abort? ==>
                exists x: MessagingError ::
                  ActingFailed(core.device, digest, store.versions, |old(store.versions)|, old(core.unresolved), handle, minute,
                               received, steps, x)
    {
      hide AllKeepRule, Consistent, Held, ReadIncoming, Settled, ReceiptRepeated, SettleFailed, AgainFailed, AnsweredFor, HandleShowed;
      AnsweredIsHeld(store.versions, handle, p, wire, Ok(received));
      AnsweredIsWire(store.versions, handle, wire, received);
      var done;
      match received {
        case Accepted(m) => done, steps := Settle(store, handle, p, m);
        case Duplicate(id, _) => done, steps := ReceiptAgain(store, handle, p, id, minute);
      }
      fate := if done.Ok? then Discard else Abort;
      if done.Err? {
        assert ActingFailed(core.device, digest, store.versions, |old(store.versions)|, old(core.unresolved), handle, minute, received,
                            steps, done.error);
      }
    }

    /** Decides about a message that was not received: an unresolved session is
        recovered, for the message to be received another time. */
    method Unreceived(store: EncryptedStore, handle: nat, error: MessagingError) returns (fate: Fate)
      requires store.Valid()
      modifies core, store
      ensures store.Valid() && old(store.versions) <= store.versions
      ensures fate.Discard? <==> Hopeless(error)
      ensures fate.Keep? && error.StillUnresolved? ==> handle !in core.unresolved
      ensures fate.Abort? ==>
                error.StillUnresolved? && handle in old(core.unresolved)
                && exists x: MessagingError ::
                     RecoverFailed(core.device, store.versions, |old(store.versions)|, old(core.unresolved)[handle], handle, x)
    {
      hide RecoverFailed, AnswersLost, StoredAt, ReadsAfter;
      if Hopeless(error) {
        return Discard;
      }
      if error.StillUnresolved? {
        var recovered;
        ghost var at, load;
        recovered, at, load := core.Recover(store, handle);
        return if recovered.Err? then Abort else Keep;
      }
      return Keep;
    }

    /** One message envelope of the peer: it is dropped from the relay only once
        the store holds its message and it was acted on, or if nothing can ever
        come of it. */
    method ProcessMessage(store: EncryptedStore, p: Identity, wire: MessageId, newDh: DhKey, newOneTime: DhKey, minute: Minute)
      returns (fate: Fate, received: Result<Received, MessagingError>, ghost steps: seq<Step>)
      requires store.Valid() && newDh < newOneTime
      modifies core, store
      ensures store.Valid() && old(store.versions) <= store.versions
      ensures var handle := core.device.handleOf(p);
              && AllKeepRule(core.device, handle, p, old(store.versions), store.versions, steps)
              && Answered(store.versions, handle, wire, received)
              && (received.Ok? && Consistent(store.versions, handle, p) ==> Held(store.versions, p, wire))
      ensures var (handle, since) := (core.device.handleOf(p), |old(store.versions)|);
              match fate
              case Discard =>
                if received.Ok? then ReceivedFor(digest, store.versions, since, handle, wire, minute, received.value)
                else Hopeless(received.error) && HopelessCause(core.device, store.versions, since, handle, wire, received.error)
              case Keep =>
                && received.Err? && (received.error.StillUnresolved? ==> handle !in core.unresolved)
                && MessageKept(core.device, old(store.versions), store.versions, old(core.unresolved), handle, wire, received.error)
                && HandleReadable(store.versions, since, handle)
              case Abort =>
                MessageAborted(core.device, digest, old(store.versions), store.versions, old(core.unresolved), handle, p, minute,
                               if received.Ok? then HeldHere(received.value) else Failed(received.error))
      ensures received.Err? ==>
                (fate.Discard? <==>
                   match received.error
                   case RatchetFailure(_) => true
                   case ExhaustedGenerations => true
                   case PrekeyRefused(_) => true
                   case ExtraConflict(_, _) => true
                   case _ => false)
    {
      hide AllKeepRule, Consistent, Answered, Held, Hopeless, HopelessCause, ReceivedFor, MessageKept, MessageAborted, Performed,
           CommittedFailed, HandleError, ActingFailed, RecoverFailed, HandleReadable;
      ghost var (before, was) := (store.versions, core.unresolved);
      var handle := core.device.handleOf(p);
      steps := [];
      NoStepsKeepRule(core.device, handle, p, before);
      var first := core.RequirePeer(store, handle);
      ghost var read := store.versions;
      AllKeepLater(core.device, handle, p, before, before, before, read, []);
      if first.Err? && first.error != NoSession {
        HandleFails(read, |before|, handle, |read| - 1, first.error);
        UnreadAborts(core.device, digest, before, read, was, handle, p, minute, first.error);
        ErrorsByFate(first.error);
        NotAnswered(read, handle, wire, first.error);
        return Abort, Err(first.error), steps;
      }
      ReadableNow(read, |before|, handle);
      ghost var attempt, receipt;
      received, attempt, receipt := ReceiveCommitted(store, p, wire, newDh, newOneTime);
      ghost var (mid, now) := (store.versions, core.unresolved);
      AllKeepLater(core.device, handle, p, before, before, before, mid, []);
      if received.Err? {
        fate := Unreceived(store, handle, received.error);
        ErrorsByFate(received.error);
        AllKeepLater(core.device, handle, p, before, before, mid, store.versions, []);
        AnsweredLater(mid, store.versions, handle, wire, received);
        ReadableLater(read, store.versions, |before|, handle);
        UnreceivedMeans(core.device, digest, before, read, mid, store.versions, was, now, handle, p, wire, newDh, attempt, receipt,
                        minute, received.error, fate);
        return;
      }
      fate, steps := ActOn(store, handle, p, wire, received.value, minute);
      AllKeepLater(core.device, handle, p, before, mid, store.versions, store.versions, steps);
      AnsweredLater(mid, store.versions, handle, wire, received);
      AnsweredIsHeld(store.versions, handle, p, wire, received);
      ActedMeans(core.device, digest, before, mid, store.versions, was, handle, p, wire, minute, received.value, fate, steps);
    }

    // ── Handshakes ──────────────────────────────────────────────────────────

    /** Whether the session under the handle is one an older build left behind. One
        that is absent, or cannot be read as a session of this pair, is not. */
    method IsLegacy(store: EncryptedStore, handle: nat) returns (r: Result<bool, MessagingError>)
      requires store.Valid()
      modifies store
      ensures store.Valid() && old(store.versions) <= store.versions
      ensures r.Ok? ==>
                if r.value then LegacyShown(store.versions, |old(store.versions)|, core.device.our, handle)
                else NoLegacyShown(store.versions, |old(store.versions)|, core.device.our, handle)
      ensures r.Err? ==> !NotASession(r.error) && LoadFailed(store.versions, |old(store.versions)|, core.device.our, handle, r.error)
    {
      hide Shown, LoadFailed, LegacyUnconfirmed;
      var session, shown := core.LoadSession(store, handle);
      if session.Err? {
        return if NotASession(session.error) then Ok(false) else Err(session.error);
      }
      return Ok(LegacyUnconfirmed(session.value.State()));
    }

    /** Whether both sides started a session: ours stands, and is unconfirmed. */
    method BothInitiated(store: EncryptedStore, handle: nat) returns (r: Result<bool, MessagingError>)
      requires store.Valid()
      modifies store
      ensures store.Valid() && old(store.versions) <= store.versions
      ensures r.Ok? ==> ConflictShown(store.versions, |old(store.versions)|, core.device.our, handle, r.value)
      ensures r.Err? ==>
                || OutboundFailed(store.versions, |old(store.versions)|, handle, r.error)
                || LoadFailed(store.versions, |old(store.versions)|, core.device.our, handle, r.error)
    {
      hide OutboundShown, OutboundFailed, ConfirmedShown, LoadFailed;
      ghost var before := store.versions;
      var sent := InitialOutbound(store, handle);
      ghost var mid := store.versions;
      if sent.Err? {
        return Err(sent.error);
      }
      if sent.value.None? {
        return Ok(false);
      }
      var confirmed := Confirmed(store, handle);
      OutboundLater(mid, store.versions, |before|, |before|, handle, sent.value);
      if confirmed.Err? {
        LoadFailedLater(store.versions, store.versions, |mid|, |before|, core.device.our, handle, confirmed.error);
        return Err(confirmed.error);
      }
      ConfirmedLater(store.versions, store.versions, |mid|, |before|, core.device.our, handle, confirmed.value);
      return Ok(!confirmed.value);
    }

    /** Checks the handshake against the prekeys held and records it. */
    method EstablishResponder(store: EncryptedStore, p: Identity, handshake: InitiatorHandshake)
      returns (r: Result<(), MessagingError>, ghost step: Option<Step>)
      requires store.Valid() && handshake.InitiatorHandshake?
      modifies store
      ensures store.Valid() && old(store.versions) <= store.versions
      ensures step.Some? ==> Took(core.device, 0, old(store.versions), store.versions, step.value)
      ensures r.Ok? ==>
                && RecordedWithin(store.versions, |old(store.versions)|, core.device.handleOf(p), p, handshake)
                && Answerable(store.versions, |old(store.versions)|, handshake)
      ensures r.Err? ==>
                EstablishFailed(core.device, store.versions, |old(store.versions)|, core.unresolved, p, handshake, step, r.error)
    {
      hide Took, Fires, RecordedWithin, CheckAnswerable, PrekeysHeld, NoPrekeys, RecordFailed;
      step := None;
      ghost var before := store.versions;
      var record := store.Get(PrekeysKey);
      ghost var read := store.versions;
      PrekeysRead(read, |before|);
      if record.None? || !record.value.PrekeyRecord? {
        return Err(PrekeysUnavailable), step;
      }
      var refused := CheckAnswerable(record.value.prekeys, handshake);
      if refused.Some? {
        assert Unanswered(read, |before|, handshake, refused.value);
        return Err(PrekeyRefused(refused.value)), step;
      }
      var fault: Fault := *;
      r, step := core.RecordProvisionalHandshake(store, p, handshake, record.value.prekeys, fault);
      PrekeysHeldLater(read, store.versions, |before|, |before|, record.value.prekeys);
      if step.Some? {
        TookSince(core.device, 0, before, read, store.versions, step.value);
      }
      if r.Ok? {
        if step.Some? {
          RecordingStays(core.device, before, store.versions, |before|, step.value, p, handshake);
        } else {
          RecordedNow(store.versions, |before|, core.device.handleOf(p), p, handshake);
        }
      } else {
        RecordFailedLater(core.device, store.versions, |read|, |before|, core.unresolved, p, record.value.prekeys, step, r.error);
      }
    }

    /** One handshake envelope of the peer. */
    method ProcessHandshake(store: EncryptedStore, p: Identity, handshake: InitiatorHandshake) returns (d: Decision)
      requires store.Valid()
      modifies store
      ensures store.Valid() && old(store.versions) <= store.versions && !d.reason.Unpinned?
      ensures match d.fate
              case Discard => HandshakeDropped(core.device, store.versions, |old(store.versions)|, p, handshake, d.reason)
              case Keep =>
                && d.reason.Failed?
                && HandshakeKept(core.device, old(store.versions), store.versions, core.unresolved, p, handshake, d.reason.error)
              case Abort =>
                && d.reason.Failed?
                && HandshakeAborted(store.versions, |old(store.versions)|, core.device.our, core.device.handleOf(p), d.reason.error)
      ensures handshake.MalformedHandshake? || handshake.identity != p ==> d == Decision(Discard, NotOwn) && unchanged(store)
    {
      hide HandshakeDropped, HandshakeKept, HandshakeAborted, LegacyShown, NoLegacyShown, ConflictShown, OutboundFailed, LoadFailed,
           HandleError, StoodBefore;
      if handshake.MalformedHandshake? || handshake.identity != p {
        OthersDropped(core.device, store.versions, |store.versions|, p, handshake);
        return Decision(Discard, NotOwn);
      }
      ghost var before := store.versions;
      var handle := core.device.handleOf(p);
      var peer := core.RequirePeer(store, handle);
      ghost var (read, i) := (store.versions, |store.versions| - 1);
      if peer.Err? && peer.error != NoSession {
        HandleAborts(read, |before|, core.device.our, handle, i, peer.error);
        return Decision(Abort, Failed(peer.error));
      }
      var legacy := false;
      if peer.Ok? {
        var retirable := IsLegacy(store, handle);
        ghost var seen := store.versions;
        assert seen[i] == read[i];
        if retirable.Err? {
          LegacyAborts(seen, |read|, |before|, core.device.our, handle, peer.value, i, retirable.error);
          return Decision(Abort, Failed(retirable.error));
        }
        legacy := retirable.value;
        if !legacy {
          var conflict := BothInitiated(store, handle);
          assert store.versions[i] == seen[i];
          if conflict.Err? {
            ConflictAborts(seen, store.versions, |read|, |before|, core.device.our, handle, peer.value, i, conflict.error);
            return Decision(Abort, Failed(conflict.error));
          }
          SessionDrops(core.device, seen, store.versions, |read|, |before|, p, handshake, peer.value, i, conflict.value);
          return Decision(Discard, HasSession(conflict.value));
        }
      }
      ghost var mid := store.versions;
      assert mid[i] == read[i];
      Stood(mid, |read|, |before|, core.device.our, handle, i, legacy);
      d := RecordOrRefuse(store, p, handshake, legacy, before);
    }

    /** Records the handshake, or refuses it: what stood under the handle before is
        known by now. */
    method RecordOrRefuse(store: EncryptedStore, p: Identity, handshake: InitiatorHandshake, legacy: bool, ghost before: seq<Contents>)
      returns (d: Decision)
      requires store.Valid() && handshake.InitiatorHandshake? && handshake.identity == p && before <= store.versions
      requires StoodBefore(store.versions, |before|, core.device.our, core.device.handleOf(p), legacy)
      modifies store
      ensures store.Valid() && old(store.versions) <= store.versions && !d.reason.Unpinned? && !d.fate.Abort?
      ensures d.fate.Discard? ==> HandshakeDropped(core.device, store.versions, |before|, p, handshake, d.reason)
      ensures d.fate.Keep? ==>
                && d.reason.Failed?
                && HandshakeKept(core.device, before, store.versions, core.unresolved, p, handshake, d.reason.error)
    {
      hide HandshakeDropped, HandshakeKept, EstablishFailed, StoodBefore, RecordedWithin, Answerable, Took, Transient;
      ghost var mid := store.versions;
      var r;
      ghost var step;
      r, step := EstablishResponder(store, p, handshake);
      StoodLater(mid, store.versions, |before|, |before|, core.device.our, core.device.handleOf(p), legacy);
      if r.Ok? {
        RecordedDrops(core.device, store.versions, |mid|, |before|, p, handshake, legacy);
        return Decision(Discard, Recorded);
      }
      EstablishFailedSince(core.device, store.versions, |mid|, |before|, core.unresolved, p, handshake, step, r.error);
      if Transient(r.error) {
        KeptFor(core.device, before, mid, store.versions, core.unresolved, p, handshake, step, r.error);
        return Decision(Keep, Failed(r.error));
      }
      RefusedDrops(core.device, store.versions, |before|, core.unresolved, p, handshake, step, r.error, legacy);
      return Decision(Discard, Refused(r.error, legacy));
    }

    /** One envelope. */
    method Process(store: EncryptedStore, e: W.Envelope, minute: Minute) returns (d: Decision)
      requires store.Valid()
      modifies core, store
      ensures store.Valid() && old(store.versions) <= store.versions
      ensures Deserved(core.device, digest, reading, store.versions, |old(store.versions)|, minute, e, d)
      ensures LeftOnRelay(core.device, digest, reading, old(store.versions), store.versions, old(core.unresolved), minute, e, d)
    {
      hide Consistent, Held, AllKeepRule, Answered, HandshakeDropped, HandshakeKept, HandshakeAborted, MessageKept, MessageAborted,
           Hopeless, HopelessCause, ReceivedFor;
      var p := reading.identity(e.sender);
      if !reading.pinned(p) {
        return Decision(Discard, Unpinned);
      }
      if e.HandshakeEnvelope? {
        d := ProcessHandshake(store, p, reading.handshake(e.body));
        DroppedReasons(core.device, store.versions, |old(store.versions)|, p, reading.handshake(e.body), d.reason);
        return;
      }
      var newDh: nat :| 0 <= newDh;
      var fate, received;
      ghost var steps;
      fate, received, steps := ProcessMessage(store, p, reading.wire(e.body), newDh, newDh + 1, minute);
      return Decision(fate, if received.Ok? then HeldHere(received.value) else Failed(received.error));
    }
  }
}

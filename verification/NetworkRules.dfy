/** What the network layer may do about a peer's messages, what its calls leave on
    record, and why they fail. */
module NetworkRules {
  import opened Prelude
  import opened Bytes
  import opened SymbolicKeys
  import opened StoreRecords
  import opened ConditionalWrites
  import opened Storage
  import opened MessengerModel
  import opened MessengerInvariant
  import opened MessengerRuns
  import opened MessengerGuarantees
  import opened MessengerRecovery
  import opened MessengerBatches
  import opened Messaging
  import opened MessagingReports
  import opened MessengerCauses
  import opened PendingLists
  import opened EndToEnd
  import opened EndToEndRuns
  import W = WireCodec
  import opened RatchetFields
  import opened RatchetModel
  import opened Staging

  /** The rows of `p` name themselves, and the handle names nobody else. */
  ghost predicate Consistent(versions: seq<Contents>, handle: nat, p: Identity) {
    forall k :: 0 <= k < |versions| ==> ConsistentRows(versions[k], handle, p)
  }

  ghost predicate ConsistentRows(c: Contents, handle: nat, p: Identity) {
    && (forall id :: InboxKey(p, id) in c && c[InboxKey(p, id)].InboxRecord? ==> c[InboxKey(p, id)].incoming.id == id)
    && (forall id :: OutboxKey(p, id) in c && c[OutboxKey(p, id)].OutboxRecord? ==> c[OutboxKey(p, id)].outgoing.id == id)
    && (HandleKey(handle) in c && c[HandleKey(handle)].HandleRecord? ==> c[HandleKey(handle)].peer == p)
  }

  /** Every run's store is consistent for a peer nobody shares a handle with. */
  lemma RunsAreConsistent(d: Device, r: Run, p: Identity)
    requires IsRun(d, r) && NoCollision(d, r)
    requires forall q :: d.handleOf(q) == d.handleOf(p) ==> q == p
    ensures Consistent(r.versions, d.handleOf(p), p)
  {
    forall k | 0 <= k < |r.versions|
      ensures ConsistentRows(r.versions[k], d.handleOf(p), p)
    {
      RunKeepsInv(d, r, k);
    }
  }

  ghost predicate Held(versions: seq<Contents>, p: Identity, id: MessageId) {
    exists k :: 0 <= k < |versions| && AcceptedAt(versions[k], p, id)
  }

  /** The transaction is a step of a run that keeps the rule the end-to-end
      theorem asks of the application. */
  ghost predicate KeepsRule(d: Device, handle: nat, p: Identity, before: seq<Contents>, after: seq<Contents>, s: Step) {
    && TookWithin(d, 0, before, after, s)
    && (Consistent(after, handle, p) ==> RuleAt(p, after, s.at, s.event.tx))
  }

  ghost predicate AllKeepRule(d: Device, handle: nat, p: Identity, before: seq<Contents>, after: seq<Contents>, steps: seq<Step>) {
    forall i :: 0 <= i < |steps| ==> KeepsRule(d, handle, p, before, after, steps[i])
  }

  lemma ConsistentBefore(versions: seq<Contents>, later: seq<Contents>, handle: nat, p: Identity)
    requires versions <= later && Consistent(later, handle, p)
    ensures Consistent(versions, handle, p)
  {
    hide ConsistentRows;
    forall k | 0 <= k < |versions|
      ensures ConsistentRows(versions[k], handle, p)
    {
      assert ConsistentRows(later[k], handle, p);
    }
  }

  lemma HeldLater(versions: seq<Contents>, later: seq<Contents>, p: Identity, id: MessageId)
    requires versions <= later && Held(versions, p, id)
    ensures Held(later, p, id)
  {
    var k :| 0 <= k < |versions| && AcceptedAt(versions[k], p, id);
    assert AcceptedAt(later[k], p, id);
  }

  lemma RuleLater(y: Identity, versions: seq<Contents>, later: seq<Contents>, i: nat, tx: Tx)
    requires versions <= later && i < |versions| && RuleAt(y, versions, i, tx)
    ensures RuleAt(y, later, i, tx)
  {
    hide AcceptedAt, ReadReceipt, ReadOwnReceipt;
    if tx.Send? && tx.index == y && tx.plaintext.Receipt? {
      forall id | id in tx.plaintext.ids
        ensures exists k :: 0 <= k <= i && AcceptedAt(later[k], y, id)
      {
        var k :| 0 <= k <= i && AcceptedAt(versions[k], y, id);
        assert AcceptedAt(later[k], y, id);
      }
    } else if tx.AckOut? && tx.peer == y {
      var k :| 0 <= k <= i && (ReadReceipt(versions[k], y, tx.id) || ReadOwnReceipt(versions[k], y, tx.id));
      assert ReadReceipt(later[k], y, tx.id) || ReadOwnReceipt(later[k], y, tx.id);
    }
  }

  lemma KeepsRuleLater(d: Device, handle: nat, p: Identity, earlier: seq<Contents>, before: seq<Contents>, after: seq<Contents>,
                     later: seq<Contents>, s: Step)
    requires earlier <= before && after <= later && KeepsRule(d, handle, p, before, after, s)
    ensures KeepsRule(d, handle, p, earlier, later, s)
  {
    hide Formed, After, Reads, RuleAt, Consistent;
    assert after[..s.at + 2] == later[..s.at + 2];
    if Consistent(later, handle, p) {
      ConsistentBefore(after, later, handle, p);
      RuleLater(p, after, later, s.at, s.event.tx);
    }
  }

  lemma AllKeepLater(d: Device, handle: nat, p: Identity, earlier: seq<Contents>, before: seq<Contents>, after: seq<Contents>,
                       later: seq<Contents>, steps: seq<Step>)
    requires earlier <= before && after <= later && AllKeepRule(d, handle, p, before, after, steps)
    ensures AllKeepRule(d, handle, p, earlier, later, steps)
  {
    hide KeepsRule;
    forall i | 0 <= i < |steps|
      ensures KeepsRule(d, handle, p, earlier, later, steps[i])
    {
      KeepsRuleLater(d, handle, p, earlier, before, after, later, steps[i]);
    }
  }

  lemma AllKeepTogether(d: Device, handle: nat, p: Identity, before: seq<Contents>, mid: seq<Contents>, after: seq<Contents>,
                          first: seq<Step>, second: seq<Step>)
    requires before <= mid <= after
    requires AllKeepRule(d, handle, p, before, mid, first) && AllKeepRule(d, handle, p, mid, after, second)
    ensures AllKeepRule(d, handle, p, before, after, first + second)
  {
    hide KeepsRule;
    AllKeepLater(d, handle, p, before, before, mid, after, first);
    AllKeepLater(d, handle, p, before, mid, after, after, second);
  }

  /** A receipt for a message `p`'s rows hold keeps the rule. */
  lemma ReceiptKeepsRule(d: Device, handle: nat, p: Identity, before: seq<Contents>, after: seq<Contents>, s: Step, id: MessageId)
    requires before <= after && Took(d, 0, before, after, s) && s.event.tx.Send? && s.event.tx.plaintext == Receipt([id])
    requires Consistent(before, handle, p) ==> Held(before, p, id)
    ensures KeepsRule(d, handle, p, before, after, s)
  {
    hide Formed, After, Reads, Consistent, AcceptedAt;
    assert after[..s.at + 2] == after;
    if Consistent(after, handle, p) {
      ConsistentBefore(before, after, handle, p);
      var k :| 0 <= k < |before| && AcceptedAt(before[k], p, id);
      assert AcceptedAt(after[k], p, id);
    }
  }

  /** Acknowledging what a receipt in `p`'s inbox lists keeps the rule. */
  lemma ListedKeepsRule(d: Device, handle: nat, p: Identity, before: seq<Contents>, after: seq<Contents>, s: Step, m: IncomingMessage)
    requires before <= after && Took(d, 0, before, after, s) && s.event.tx.AckOut?
    requires m.plaintext.Receipt? && s.event.tx.id in m.plaintext.ids
    requires Consistent(before, handle, p) ==> ReadIncoming(before, p, m)
    ensures KeepsRule(d, handle, p, before, after, s)
  {
    hide Formed, After, Reads, Consistent;
    assert after[..s.at + 2] == after;
    if Consistent(after, handle, p) {
      ConsistentBefore(before, after, handle, p);
      var row :| ShowsInbox(before, p, row, m);
      var k :| 0 <= k < |before| && Lookup(before[k], InboxKey(p, row)) == Some(InboxRecord(m));
      assert ReadReceipt(after[k], p, s.event.tx.id);
    }
  }

  /** So does acknowledging a receipt of one's own, read as pending. */
  lemma OwnKeepsRule(d: Device, handle: nat, p: Identity, before: seq<Contents>, after: seq<Contents>, s: Step, m: OutgoingMessage)
    requires before <= after && Took(d, 0, before, after, s) && s.event.tx.AckOut?
    requires s.event.tx.id == m.id && ReceiptClient(m.client)
    requires Consistent(before, handle, p) ==> ReadOutgoing(before, p, m)
    ensures KeepsRule(d, handle, p, before, after, s)
  {
    hide Formed, After, Reads;
    assert after[..s.at + 2] == after;
    if Consistent(after, handle, p) {
      ConsistentBefore(before, after, handle, p);
      var row :| ShowsOutbox(before, p, row, m);
      var k :| 0 <= k < |before| && Lookup(before[k], OutboxKey(p, row)) == Some(OutboxRecord(m)) && DecodesOutbox(OutboxRecord(m));
      assert ConsistentRows(before[k], handle, p);
      assert ReadOwnReceipt(after[k], p, s.event.tx.id);
    }
  }

  /** Acknowledging an incoming message is no business of the rule. */
  lemma ReadKeepsRule(d: Device, handle: nat, p: Identity, before: seq<Contents>, after: seq<Contents>, s: Step)
    requires before <= after && Took(d, 0, before, after, s) && s.event.tx.AckIn?
    ensures KeepsRule(d, handle, p, before, after, s)
  {
    hide Formed, After, Reads, Consistent;
    assert after[..s.at + 2] == after;
  }

  lemma OneKeepsRule(d: Device, handle: nat, p: Identity, before: seq<Contents>, after: seq<Contents>, s: Option<Step>)
    requires s.Some? ==> KeepsRule(d, handle, p, before, after, s.value)
    ensures AllKeepRule(d, handle, p, before, after, Taken(s))
  {
  }

  function Taken(s: Option<Step>): seq<Step> {
    if s.Some? then [s.value] else []
  }

  lemma ReadIncomingIsHeld(versions: seq<Contents>, handle: nat, p: Identity, m: IncomingMessage)
    requires Consistent(versions, handle, p) && ReadIncoming(versions, p, m)
    ensures Held(versions, p, m.id)
  {
    var row :| ShowsInbox(versions, p, row, m);
    var k :| 0 <= k < |versions| && Lookup(versions[k], InboxKey(p, row)) == Some(InboxRecord(m));
    assert ConsistentRows(versions[k], handle, p);
    assert AcceptedAt(versions[k], p, m.id);
  }

  lemma ReadIncomingLater(versions: seq<Contents>, later: seq<Contents>, handle: nat, p: Identity, m: IncomingMessage)
    requires versions <= later && (Consistent(versions, handle, p) ==> ReadIncoming(versions, p, m))
    ensures Consistent(later, handle, p) ==> ReadIncoming(later, p, m)
  {
    hide ShowsInbox, Consistent;
    if Consistent(later, handle, p) {
      ConsistentBefore(versions, later, handle, p);
      var row :| ShowsInbox(versions, p, row, m);
      ShowsInboxLater(versions, later, p, row, m);
    }
  }

  lemma OwnerIs(versions: seq<Contents>, handle: nat, p: Identity, q: Identity)
    requires Consistent(versions, handle, p) && HandleShowed(versions, handle, q)
    ensures q == p
  {
    var k :| 0 <= k < |versions| && Lookup(versions[k], HandleKey(handle)) == Some(HandleRecord(q));
    assert ConsistentRows(versions[k], handle, p);
  }

  ghost predicate NotPendingOnce(versions: seq<Contents>, p: Identity, id: MessageId) {
    exists k :: 0 <= k < |versions| && OutboxKey(p, id) !in versions[k]
  }

  /** `id` left, or was never in, the outbox of the handle's peer. */
  ghost predicate Cleared(versions: seq<Contents>, handle: nat, id: MessageId) {
    exists p :: HandleShowed(versions, handle, p) && NotPendingOnce(versions, p, id)
  }

  lemma ClearedNow(versions: seq<Contents>, handle: nat, p: Identity, id: MessageId)
    requires |versions| > 0 && HandleShowed(versions, handle, p) && OutboxKey(p, id) !in versions[|versions| - 1]
    ensures Cleared(versions, handle, id)
  {
    assert NotPendingOnce(versions, p, id);
  }

  lemma ClearedLater(versions: seq<Contents>, later: seq<Contents>, handle: nat, id: MessageId)
    requires versions <= later && Cleared(versions, handle, id)
    ensures Cleared(later, handle, id)
  {
    var p :| HandleShowed(versions, handle, p) && NotPendingOnce(versions, p, id);
    HandleShownLater(versions, later, handle, p);
    var k :| 0 <= k < |versions| && OutboxKey(p, id) !in versions[k];
    assert OutboxKey(p, id) !in later[k];
  }

  /** What `settle` may do about an accepted message. */
  predicate Discharges(m: IncomingMessage, tx: Tx) {
    match tx
    case Send(_, _, _, client, plaintext, _) =>
      (m.plaintext.Text? || m.plaintext.Opening?) && plaintext == Receipt([m.id]) && ReceiptClient(client)
    case AckOut(_, id) => m.plaintext.Receipt? && id in m.plaintext.ids
    case AckIn(_, id) => !m.plaintext.Text? && id == m.id
    case _ => false
  }

  predicate AllDischarge(m: IncomingMessage, steps: seq<Step>) {
    forall i :: 0 <= i < |steps| ==> Discharges(m, steps[i].event.tx)
  }

  /** Nothing follows the acknowledgement of the message itself. */
  predicate ReadLast(steps: seq<Step>) {
    forall i :: 0 <= i < |steps| - 1 ==> !steps[i].event.tx.AckIn?
  }

  ghost predicate AllCleared(versions: seq<Contents>, handle: nat, m: IncomingMessage) {
    m.plaintext.Receipt? ==> forall id :: id in m.plaintext.ids ==> Cleared(versions, handle, id)
  }

  lemma AllClearedLater(versions: seq<Contents>, later: seq<Contents>, handle: nat, m: IncomingMessage)
    requires versions <= later && AllCleared(versions, handle, m)
    ensures AllCleared(later, handle, m)
  {
    hide Cleared;
    if m.plaintext.Receipt? {
      forall id | id in m.plaintext.ids
        ensures Cleared(later, handle, id)
      {
        ClearedLater(versions, later, handle, id);
      }
    }
  }

  lemma ReceiptIdIsReceipts(id: Key32, round: U64)
    ensures ReceiptClient(W.ReceiptId(id, round))
  {
  }

  ghost predicate GatheredAt(versions: seq<Contents>, p: Identity, listed: nat, ms: seq<IncomingMessage>) {
    listed < |versions| && GatheredIncoming(versions, p, InboxIds(versions[listed].Keys, p), ms)
  }

  lemma GatheredWhen(versions: seq<Contents>, p: Identity, listed: nat, ms: seq<IncomingMessage>)
    requires listed < |versions| && GatheredIncoming(versions, p, InboxIds(versions[listed].Keys, p), ms)
    ensures GatheredAt(versions, p, listed, ms)
  {
  }

  lemma GatheredLater(versions: seq<Contents>, later: seq<Contents>, p: Identity, listed: nat, ms: seq<IncomingMessage>)
    requires versions <= later && GatheredAt(versions, p, listed, ms)
    ensures GatheredAt(later, p, listed, ms)
  {
    hide ShowsInbox, InboxIds, ByGeneration;
    assert versions[listed] == later[listed];
    forall m | m in ms
      ensures ReadIncoming(later, p, m)
    {
      var row :| ShowsInbox(versions, p, row, m);
      ShowsInboxLater(versions, later, p, row, m);
    }
    forall row | row in InboxIds(versions[listed].Keys, p)
      ensures InboxListed(later, p, row, ms)
    {
      var m :| m in ms && ShowsInbox(versions, p, row, m);
      ShowsInboxLater(versions, later, p, row, m);
    }
  }

  lemma PendingIsRead(versions: seq<Contents>, later: seq<Contents>, handle: nat, p: Identity, owner: Identity, done: set<MessageId>,
                      ms: seq<IncomingMessage>, m: IncomingMessage)
    requires versions <= later && HandleShowed(versions, handle, owner) && GatheredIncoming(versions, owner, done, ms) && m in ms
    ensures Consistent(later, handle, p) ==> ReadIncoming(later, p, m)
  {
    hide ReadIncoming, Consistent, HandleShowed;
    if Consistent(versions, handle, p) {
      OwnerIs(versions, handle, p, owner);
    }
    ReadIncomingLater(versions, later, handle, p, m);
  }

  /** What was published was read as pending. */
  lemma PublishedAreRead(versions: seq<Contents>, later: seq<Contents>, handle: nat, p: Identity, owner: Identity, done: set<MessageId>,
                         ms: seq<OutgoingMessage>, published: seq<OutgoingMessage>)
    requires versions <= later && HandleShowed(versions, handle, owner) && GatheredOutgoing(versions, owner, done, ms)
    requires forall m :: m in published ==> m in ms
    ensures Consistent(later, handle, p) ==> forall m :: m in published ==> ReadOutgoing(later, p, m)
  {
    hide ShowsOutbox, Consistent, HandleShowed;
    if Consistent(later, handle, p) {
      ConsistentBefore(versions, later, handle, p);
      OwnerIs(versions, handle, p, owner);
      forall m | m in published
        ensures ReadOutgoing(later, p, m)
      {
        var row :| ShowsOutbox(versions, p, row, m);
        ShowsOutboxLater(versions, later, p, row, m);
      }
    }
  }

  ghost predicate Published(published: seq<OutgoingMessage>, id: MessageId) {
    exists m :: m in published && m.id == id
  }

  ghost predicate PublishedReceipt(published: seq<OutgoingMessage>, id: MessageId) {
    exists m :: m in published && m.id == id && ReceiptClient(m.client)
  }

  /** Only receipts of our own are forgotten, and only once published. */
  ghost predicate ForgetOwn(published: seq<OutgoingMessage>, steps: seq<Step>) {
    forall i :: 0 <= i < |steps| ==> steps[i].event.tx.AckOut? && PublishedReceipt(published, steps[i].event.tx.id)
  }

  /** Exactly what was published is marked as sent now. */
  ghost predicate Marked(was: map<MessageId, nat>, sent: map<MessageId, nat>, published: seq<OutgoingMessage>, now: nat) {
    forall id ::
      && (Published(published, id) ==> id in sent && sent[id] == now)
      && (!Published(published, id) ==> (id in sent <==> id in was) && (id in sent ==> sent[id] == was[id]))
  }

  lemma NothingForgotten()
    ensures ForgetOwn([], [])
  {
  }

  lemma ForgottenToo(published: seq<OutgoingMessage>, m: OutgoingMessage, steps: seq<Step>, own: seq<Step>)
    requires ForgetOwn(published, steps) && m in published && ReceiptClient(m.client)
    requires forall s :: s in own ==> s.event.tx.AckOut? && s.event.tx.id == m.id
    ensures ForgetOwn(published, steps + own)
  {
    forall i | |steps| <= i < |steps| + |own|
      ensures (steps + own)[i].event.tx.AckOut? && PublishedReceipt(published, (steps + own)[i].event.tx.id)
    {
      assert (steps + own)[i] == own[i - |steps|];
      assert own[i - |steps|] in own;
      assert m in published && m.id == own[i - |steps|].event.tx.id;
    }
  }

  lemma MarkedAgain(published: seq<OutgoingMessage>, m: OutgoingMessage, steps: seq<Step>)
    requires ForgetOwn(published, steps)
    ensures ForgetOwn(published + [m], steps)
    ensures forall id :: Published(published + [m], id) <==> Published(published, id) || id == m.id
  {
    forall id
      ensures Published(published + [m], id) <==> Published(published, id) || id == m.id
    {
      if Published(published, id) {
        var x :| x in published && x.id == id;
        assert x in published + [m];
      }
      if id == m.id {
        assert m in published + [m];
      }
    }
    forall i | 0 <= i < |steps|
      ensures PublishedReceipt(published + [m], steps[i].event.tx.id)
    {
      assert PublishedReceipt(published, steps[i].event.tx.id);
      var x :| x in published && x.id == steps[i].event.tx.id && ReceiptClient(x.client);
      assert x in published + [m];
    }
  }

  lemma AnsweredIsHeld(versions: seq<Contents>, handle: nat, p: Identity, wire: MessageId, r: Result<Received, MessagingError>)
    requires r.Ok? && Answered(versions, handle, wire, r)
    ensures Consistent(versions, handle, p) ==> Held(versions, p, wire)
    ensures r.value.Accepted? ==> (Consistent(versions, handle, p) ==> ReadIncoming(versions, p, r.value.message))
    ensures r.value.Duplicate? ==> r.value.id == wire
  {
    var q :| HandleShowed(versions, handle, q) && AnsweredFor(versions, q, wire, r.value);
    if Consistent(versions, handle, p) {
      hide Consistent, HandleShowed;
      OwnerIs(versions, handle, p, q);
      match r.value
      case Accepted(m) =>
        var k :| 0 <= k < |versions| && Lookup(versions[k], InboxKey(p, m.id)) == Some(InboxRecord(m));
        assert AcceptedAt(versions[k], p, wire);
        assert ShowsInbox(versions, p, m.id, m);
      case Duplicate(id, undelivered) =>
        var k :| 0 <= k < |versions| &&
                 (match undelivered
                  case Some(m) => Lookup(versions[k], InboxKey(p, id)) == Some(InboxRecord(m)) && m.id == id
                  case None => Lookup(versions[k], SeenKey(p, id)) == Some(SeenRecord(id)));
        assert AcceptedAt(versions[k], p, wire);
    }
  }

  lemma AnsweredLater(versions: seq<Contents>, later: seq<Contents>, handle: nat, wire: MessageId, r: Result<Received, MessagingError>)
    requires versions <= later && Answered(versions, handle, wire, r)
    ensures Answered(later, handle, wire, r)
  {
    if r.Ok? {
      var q :| HandleShowed(versions, handle, q) && AnsweredFor(versions, q, wire, r.value);
      HandleShownLater(versions, later, handle, q);
      AnsweredForLater(versions, later, q, wire, r.value);
    }
  }

  lemma AnsweredForLater(versions: seq<Contents>, later: seq<Contents>, p: Identity, wire: MessageId, received: Received)
    requires versions <= later && AnsweredFor(versions, p, wire, received)
    ensures AnsweredFor(later, p, wire, received)
  {
    match received
    case Accepted(m) =>
      var k :| 0 <= k < |versions| && Lookup(versions[k], InboxKey(p, m.id)) == Some(InboxRecord(m));
      assert Lookup(later[k], InboxKey(p, m.id)) == Some(InboxRecord(m));
    case Duplicate(id, undelivered) =>
      var k :| 0 <= k < |versions| &&
               (match undelivered
                case Some(m) => Lookup(versions[k], InboxKey(p, id)) == Some(InboxRecord(m)) && m.id == id
                case None => Lookup(versions[k], SeenKey(p, id)) == Some(SeenRecord(id)));
      assert later[k] == versions[k];
  }

  /** A send that committed left its message pending. */
  lemma SentIsPending(d: Device, before: seq<Contents>, after: seq<Contents>, s: Step, was: map<nat, Unresolved>,
                      now: map<nat, Unresolved>, r: Result<SendOutcome, MessagingError>)
    requires Took(d, 0, before, after, s) && s.event.tx.Send? && SendDone(d, was, now, after[s.at], s.event, r) && r.Ok?
    ensures r.value.Sent? && Status(after[s.at + 1], s.event.tx.index, s.event.tx.client) == Pending(r.value.message)
  {
    hide StagedSend, Storable;
  }

  // ── What a call left on record ────────────────────────────────────────────

  /** A send record that answers: the logical message was committed. */
  predicate OnRecord(s: SendStatus) {
    !s.NotSent? && !s.Broken?
  }

  ghost predicate ReceiptedAt(versions: seq<Contents>, handle: nat, client: ClientId, p: Identity, k: nat) {
    HandleShowed(versions, handle, p) && k < |versions| && OnRecord(Status(versions[k], p, client))
  }

  /** Under this id a receipt was committed to the handle's peer. */
  ghost predicate Receipted(versions: seq<Contents>, handle: nat, client: ClientId) {
    exists p: Identity, k: nat :: ReceiptedAt(versions, handle, client, p, k)
  }

  ghost predicate ToldAt(versions: seq<Contents>, since: nat, handle: nat, client: ClientId, outcome: SendOutcome, p: Identity, k: nat) {
    && Within(versions, since, k) && ReceiptedAt(versions, handle, client, p, k)
    && match outcome
       case Sent(m) => Status(versions[k], p, client) == Pending(m)
       case Repeated(status) => Status(versions[k], p, client) == status
  }

  /** What a send answered is what the records said during the call. */
  ghost predicate Told(versions: seq<Contents>, since: nat, handle: nat, client: ClientId, outcome: SendOutcome) {
    exists p: Identity, k: nat :: ToldAt(versions, since, handle, client, outcome, p, k)
  }

  ghost predicate ReadMarkedAt(versions: seq<Contents>, handle: nat, id: MessageId, p: Identity, k: nat) {
    HandleShowed(versions, handle, p) && k < |versions| && SeenKey(p, id) in versions[k] && InboxKey(p, id) !in versions[k]
  }

  /** The message is on record as processed. */
  ghost predicate ReadMarked(versions: seq<Contents>, handle: nat, id: MessageId) {
    exists p: Identity, k: nat :: ReadMarkedAt(versions, handle, id, p, k)
  }

  /** The message was acted on: a text or an opening has its receipt on record,
      what a receipt lists left the outbox, and all but a text are marked read. */
  ghost predicate Settled(versions: seq<Contents>, handle: nat, receipt: ClientId, m: IncomingMessage) {
    && (m.plaintext.Text? || m.plaintext.Opening? ==> Receipted(versions, handle, receipt))
    && (!m.plaintext.Text? ==> ReadMarked(versions, handle, m.id))
    && AllCleared(versions, handle, m)
  }

  ghost predicate RepeatedAt(versions: seq<Contents>, since: nat, handle: nat, first: ClientId, again: ClientId, p: Identity, k: nat) {
    && Within(versions, since, k) && ReceiptedAt(versions, handle, first, p, k)
    && (Status(versions[k], p, first).Acknowledged? ==> Receipted(versions, handle, again))
  }

  /** The message has its receipt on record, and if that had left, a further one. */
  ghost predicate ReceiptRepeated(versions: seq<Contents>, since: nat, handle: nat, first: ClientId, again: ClientId) {
    exists p: Identity, k: nat :: RepeatedAt(versions, since, handle, first, again, p, k)
  }

  lemma ReceiptedLater(versions: seq<Contents>, later: seq<Contents>, handle: nat, client: ClientId)
    requires versions <= later && Receipted(versions, handle, client)
    ensures Receipted(later, handle, client)
  {
    hide HandleShowed, Status;
    var p: Identity, k: nat :| ReceiptedAt(versions, handle, client, p, k);
    HandleShownLater(versions, later, handle, p);
    assert ReceiptedAt(later, handle, client, p, k);
  }

  lemma ReadMarkedLater(versions: seq<Contents>, later: seq<Contents>, handle: nat, id: MessageId)
    requires versions <= later && ReadMarked(versions, handle, id)
    ensures ReadMarked(later, handle, id)
  {
    hide HandleShowed;
    var p: Identity, k: nat :| ReadMarkedAt(versions, handle, id, p, k);
    HandleShownLater(versions, later, handle, p);
    assert ReadMarkedAt(later, handle, id, p, k);
  }

  lemma SettledLater(versions: seq<Contents>, later: seq<Contents>, handle: nat, receipt: ClientId, m: IncomingMessage)
    requires versions <= later && Settled(versions, handle, receipt, m)
    ensures Settled(later, handle, receipt, m)
  {
    hide Receipted, ReadMarked, Cleared;
    if m.plaintext.Text? || m.plaintext.Opening? {
      ReceiptedLater(versions, later, handle, receipt);
    }
    if !m.plaintext.Text? {
      ReadMarkedLater(versions, later, handle, m.id);
    }
    AllClearedLater(versions, later, handle, m);
  }

  lemma ReceiptRepeatedLater(versions: seq<Contents>, later: seq<Contents>, since: nat, least: nat, handle: nat,
                             first: ClientId, again: ClientId)
    requires versions <= later && least <= since && ReceiptRepeated(versions, since, handle, first, again)
    ensures ReceiptRepeated(later, least, handle, first, again)
  {
    hide HandleShowed, Status, Receipted;
    var p: Identity, k: nat :| RepeatedAt(versions, since, handle, first, again, p, k);
    HandleShownLater(versions, later, handle, p);
    if Receipted(versions, handle, again) {
      ReceiptedLater(versions, later, handle, again);
    }
    assert RepeatedAt(later, least, handle, first, again, p, k);
  }

  /** What a send that committed, or was a repetition, answered. */
  lemma SendTells(d: Device, before: seq<Contents>, after: seq<Contents>, was: map<nat, Unresolved>, now: map<nat, Unresolved>,
                  handle: nat, client: ClientId, step: Option<Step>, prior: PriorRead, r: Result<SendOutcome, MessagingError>)
    requires before <= after && r.Ok?
    requires step.Some? ==>
               && Took(d, 0, before, after, step.value) && step.value.event.tx.Send? && step.value.event.tx.handle == handle
               && step.value.event.tx.client == client && SendDone(d, was, now, after[step.value.at], step.value.event, r)
    requires step.None? ==> now == was && ReportsPrior(after, handle, client, prior, r.value) && |before| <= prior.at + 1
    ensures Told(after, |before|, handle, client, r.value) && now == was
  {
    if step.Some? {
      var s := step.value;
      SentIsPending(d, before, after, s, was, now, r);
      SendKeepsUnresolved(d, was, now, after[s.at], s.event, r);
      assert Lookup(after[s.event.listed], HandleKey(handle)) == Some(HandleRecord(s.event.tx.index));
      assert ToldAt(after, |before|, handle, client, r.value, s.event.tx.index, s.at + 1);
    } else {
      assert ToldAt(after, |before|, handle, client, r.value, prior.peer, prior.at);
    }
  }

  lemma SendKeepsUnresolved(d: Device, was: map<nat, Unresolved>, now: map<nat, Unresolved>, found: Contents, e: Event,
                            r: Result<SendOutcome, MessagingError>)
    requires e.tx.Send? && Formed(d, 0, e.tx) && SendDone(d, was, now, found, e, r) && r.Ok?
    ensures now == was
  {
    hide Formed, Fires, StagedSend;
  }

  // ── Why a call of the network layer fails ─────────────────────────────────

  /** The step is one of the call's. */
  predicate OneOf(step: Option<Step>, steps: seq<Step>) {
    step.Some? ==> step.value in steps
  }

  ghost predicate SendingFailed(d: Device, versions: seq<Contents>, since: nat, was: map<nat, Unresolved>, handle: nat,
                                client: ClientId, steps: seq<Step>, e: MessagingError)
  {
    exists step: Option<Step> :: OneOf(step, steps) && SendFailed(d, versions, since, was, handle, client, step, e)
  }

  ghost predicate KeepingFailed(u: Upkeep, versions: seq<Contents>, since: nat, handle: nat, id: MessageId, steps: seq<Step>,
                                e: MessagingError)
  {
    exists step: Option<Step> :: OneOf(step, steps) && UpkeepFailed(u, versions, since, handle, id, step, e)
  }

  ghost predicate ClearingFailed(versions: seq<Contents>, since: nat, handle: nat, m: IncomingMessage, steps: seq<Step>,
                                 e: MessagingError)
  {
    m.plaintext.Receipt? &&
      exists id :: id in m.plaintext.ids && KeepingFailed(UpkeepAckOut, versions, since, handle, id, steps, e)
  }

  /** Why a message is not settled. */
  ghost predicate SettleFailed(d: Device, versions: seq<Contents>, since: nat, was: map<nat, Unresolved>, handle: nat,
                               receipt: ClientId, m: IncomingMessage, steps: seq<Step>, e: MessagingError)
  {
    || ((m.plaintext.Text? || m.plaintext.Opening?) && SendingFailed(d, versions, since, was, handle, receipt, steps, e))
    || ClearingFailed(versions, since, handle, m, steps, e)
    || (!m.plaintext.Text? && KeepingFailed(UpkeepAckIn, versions, since, handle, m.id, steps, e))
  }

  /** Why a repeated message's receipt is not on record: the first is not, or it
      left, and the further one is not. */
  ghost predicate AgainFailed(d: Device, versions: seq<Contents>, since: nat, was: map<nat, Unresolved>, handle: nat,
                              first: ClientId, again: ClientId, steps: seq<Step>, e: MessagingError)
  {
    || SendingFailed(d, versions, since, was, handle, first, steps, e)
    || (LeftAlready(versions, since, handle, first) && SendingFailed(d, versions, since, was, handle, again, steps, e))
  }

  lemma SendingFailedLater(d: Device, versions: seq<Contents>, later: seq<Contents>, since: nat, least: nat, was: map<nat, Unresolved>,
                           handle: nat, client: ClientId, steps: seq<Step>, more: seq<Step>, e: MessagingError)
    requires versions <= later && least <= since && (forall s :: s in steps ==> s in more)
    requires SendingFailed(d, versions, since, was, handle, client, steps, e)
    ensures SendingFailed(d, later, least, was, handle, client, more, e)
  {
    hide SendFailed;
    var step: Option<Step> :| OneOf(step, steps) && SendFailed(d, versions, since, was, handle, client, step, e);
    SendFailedLater(d, versions, later, since, least, was, handle, client, step, e);
    assert OneOf(step, more);
  }

  lemma KeepingFailedLater(u: Upkeep, versions: seq<Contents>, later: seq<Contents>, since: nat, least: nat, handle: nat, id: MessageId,
                           steps: seq<Step>, more: seq<Step>, e: MessagingError)
    requires versions <= later && least <= since && (forall s :: s in steps ==> s in more)
    requires KeepingFailed(u, versions, since, handle, id, steps, e)
    ensures KeepingFailed(u, later, least, handle, id, more, e)
  {
    hide UpkeepFailed;
    var step: Option<Step> :| OneOf(step, steps) && UpkeepFailed(u, versions, since, handle, id, step, e);
    UpkeepFailedLater(u, versions, later, since, least, handle, id, step, e);
    assert OneOf(step, more);
  }

  lemma SettleFailedLater(d: Device, versions: seq<Contents>, later: seq<Contents>, since: nat, least: nat, was: map<nat, Unresolved>,
                          handle: nat, receipt: ClientId, m: IncomingMessage, steps: seq<Step>, more: seq<Step>, e: MessagingError)
    requires versions <= later && least <= since && (forall s :: s in steps ==> s in more)
    requires SettleFailed(d, versions, since, was, handle, receipt, m, steps, e)
    ensures SettleFailed(d, later, least, was, handle, receipt, m, more, e)
  {
    hide SendingFailed, KeepingFailed;
    if SendingFailed(d, versions, since, was, handle, receipt, steps, e) {
      SendingFailedLater(d, versions, later, since, least, was, handle, receipt, steps, more, e);
    }
    if ClearingFailed(versions, since, handle, m, steps, e) {
      var id :| id in m.plaintext.ids && KeepingFailed(UpkeepAckOut, versions, since, handle, id, steps, e);
      KeepingFailedLater(UpkeepAckOut, versions, later, since, least, handle, id, steps, more, e);
    }
    if KeepingFailed(UpkeepAckIn, versions, since, handle, m.id, steps, e) {
      KeepingFailedLater(UpkeepAckIn, versions, later, since, least, handle, m.id, steps, more, e);
    }
  }

  lemma SendingFails(d: Device, versions: seq<Contents>, since: nat, was: map<nat, Unresolved>, handle: nat, client: ClientId,
                     step: Option<Step>, e: MessagingError)
    requires SendFailed(d, versions, since, was, handle, client, step, e)
    ensures SendingFailed(d, versions, since, was, handle, client, Taken(step), e)
  {
    hide SendFailed;
    assert OneOf(step, Taken(step));
  }

  lemma KeepingFails(u: Upkeep, versions: seq<Contents>, since: nat, handle: nat, id: MessageId, step: Option<Step>, e: MessagingError)
    requires UpkeepFailed(u, versions, since, handle, id, step, e)
    ensures KeepingFailed(u, versions, since, handle, id, Taken(step), e)
  {
    hide UpkeepFailed;
    assert OneOf(step, Taken(step));
  }

  lemma ReadMarkedNow(versions: seq<Contents>, handle: nat, id: MessageId, p: Identity)
    requires |versions| > 0 && HandleShowed(versions, handle, p)
    requires SeenKey(p, id) in versions[|versions| - 1] && InboxKey(p, id) !in versions[|versions| - 1]
    ensures ReadMarked(versions, handle, id)
  {
    hide HandleShowed;
    assert ReadMarkedAt(versions, handle, id, p, |versions| - 1);
  }

  lemma ToldIsReceipted(versions: seq<Contents>, since: nat, handle: nat, client: ClientId, outcome: SendOutcome)
    requires Told(versions, since, handle, client, outcome)
    ensures Receipted(versions, handle, client)
  {
    hide HandleShowed, Status;
  }

  /** The receipt sent first was found acknowledged: it left. */
  ghost predicate LeftAlready(versions: seq<Contents>, since: nat, handle: nat, client: ClientId) {
    exists p: Identity, k: nat ::
      Within(versions, since, k) && HandleShowed(versions, handle, p) && Status(versions[k], p, client).Acknowledged?
  }

  lemma ToldLeft(versions: seq<Contents>, later: seq<Contents>, since: nat, handle: nat, client: ClientId, outcome: SendOutcome)
    requires versions <= later && Told(versions, since, handle, client, outcome)
    requires outcome.Repeated? && outcome.status.Acknowledged?
    ensures LeftAlready(later, since, handle, client)
  {
    hide HandleShowed, Status;
    var p: Identity, k: nat :| ToldAt(versions, since, handle, client, outcome, p, k);
    HandleShownLater(versions, later, handle, p);
    assert Within(later, since, k) && Status(later[k], p, client).Acknowledged?;
  }

  /** The first receipt is on record; if it was found to have left, so is a
      further one. */
  lemma TellsRepeated(versions: seq<Contents>, later: seq<Contents>, since: nat, handle: nat, first: ClientId, again: ClientId,
                      outcome: SendOutcome)
    requires versions <= later && Told(versions, since, handle, first, outcome)
    requires outcome.Repeated? && outcome.status.Acknowledged? ==> Receipted(later, handle, again)
    ensures ReceiptRepeated(later, since, handle, first, again)
  {
    hide HandleShowed, Status, Receipted;
    var p: Identity, k: nat :| ToldAt(versions, since, handle, first, outcome, p, k);
    HandleShownLater(versions, later, handle, p);
    assert RepeatedAt(later, since, handle, first, again, p, k);
  }

  /** Why not everything in the inbox was settled: it could not be listed, or one
      of the messages read there was not settled. */
  ghost predicate InboxFailed(d: Device, digest: MessageId -> Key32, versions: seq<Contents>, since: nat, was: map<nat, Unresolved>,
                              handle: nat, steps: seq<Step>, e: MessagingError)
  {
    || InboxListFailed(versions, since, handle, e)
    || exists m: IncomingMessage ::
         ReadOnHandle(versions, handle, m) && SettleFailed(d, versions, since, was, handle, W.ReceiptId(digest(m.id), 0), m, steps, e)
  }

  ghost predicate ReadOnHandle(versions: seq<Contents>, handle: nat, m: IncomingMessage) {
    exists p :: HandleShowed(versions, handle, p) && ReadIncoming(versions, p, m)
  }

  lemma ListedIsRead(versions: seq<Contents>, later: seq<Contents>, handle: nat, p: Identity, done: set<MessageId>,
                     ms: seq<IncomingMessage>, m: IncomingMessage)
    requires versions <= later && HandleShowed(versions, handle, p) && GatheredIncoming(versions, p, done, ms) && m in ms
    ensures ReadOnHandle(later, handle, m)
  {
    hide ShowsInbox, HandleShowed;
    HandleShownLater(versions, later, handle, p);
    var row :| ShowsInbox(versions, p, row, m);
    ShowsInboxLater(versions, later, p, row, m);
    assert ReadIncoming(later, p, m);
  }

  // ── Publishing ────────────────────────────────────────────────────────────

  /** What is handed to the relay: a message, or the handshake stored with the
      session. */
  datatype Post = PostMessage(message: OutgoingMessage) | PostHandshake(record: Record)

  datatype PublishError = NotTaken(post: Post) | FromCore(error: MessagingError)

  /** It is time to hand over what was last handed over as `sent` says. */
  predicate Due<K(==)>(sent: map<K, nat>, wait: nat, key: K, now: nat) {
    key in sent ==> now - sent[key] >= wait
  }

  ghost predicate PublishedFrom(versions: seq<Contents>, since: nat, handle: nat, sent: map<MessageId, nat>, wait: nat,
                                published: seq<OutgoingMessage>, now: nat, owner: Identity, listed: nat, ms: seq<OutgoingMessage>)
  {
    && HandleShowed(versions, handle, owner) && Within(versions, since, listed)
    && GatheredOutgoing(versions, owner, OutboxIds(versions[listed].Keys, owner), ms)
    && AllDuePublished(sent, wait, published, now, ms) && forall m :: m in published ==> m in ms
  }

  ghost predicate AllDuePublished(sent: map<MessageId, nat>, wait: nat, published: seq<OutgoingMessage>, now: nat,
                                  ms: seq<OutgoingMessage>)
  {
    forall m :: m in ms && Due(sent, wait, m.id, now) ==> Published(published, m.id)
  }

  /** Everything the outbox of the handle's peer listed, and that was due, was
      handed over. */
  ghost predicate OutboxPublished(versions: seq<Contents>, since: nat, handle: nat, sent: map<MessageId, nat>, wait: nat,
                                  published: seq<OutgoingMessage>, now: nat)
  {
    exists owner: Identity, listed: nat, ms: seq<OutgoingMessage> ::
      PublishedFrom(versions, since, handle, sent, wait, published, now, owner, listed, ms)
  }

  ghost predicate PendingOnHandle(versions: seq<Contents>, handle: nat, m: OutgoingMessage) {
    exists p :: HandleShowed(versions, handle, p) && ReadOutgoing(versions, p, m)
  }

  /** Our receipts among what was handed over left the outbox. */
  ghost predicate ReceiptsCleared(versions: seq<Contents>, handle: nat, published: seq<OutgoingMessage>) {
    forall m :: m in published && ReceiptClient(m.client) ==> Cleared(versions, handle, m.id)
  }

  /** Why a message is not handed over, or its receipt not forgotten. */
  ghost predicate PublishFailed(versions: seq<Contents>, since: nat, handle: nat, sent: map<MessageId, nat>, wait: nat, now: nat,
                                takes: Post -> bool, published: seq<OutgoingMessage>, steps: seq<Step>, e: PublishError)
  {
    match e
    case NotTaken(PostMessage(m)) => !takes(PostMessage(m)) && Due(sent, wait, m.id, now) && PendingOnHandle(versions, handle, m)
    case NotTaken(_) => false
    case FromCore(x) => OutboxListFailed(versions, since, handle, x) || ForgettingFailed(versions, since, handle, published, steps, x)
  }

  ghost predicate ForgettingFailed(versions: seq<Contents>, since: nat, handle: nat, published: seq<OutgoingMessage>, steps: seq<Step>,
                                   x: MessagingError)
  {
    exists m :: m in published && ReceiptClient(m.client) && KeepingFailed(UpkeepAckOut, versions, since, handle, m.id, steps, x)
  }

  lemma ReceiptsClearedLater(versions: seq<Contents>, later: seq<Contents>, handle: nat, published: seq<OutgoingMessage>)
    requires versions <= later && ReceiptsCleared(versions, handle, published)
    ensures ReceiptsCleared(later, handle, published)
  {
    hide Cleared, ReceiptClient;
    forall m | m in published && ReceiptClient(m.client)
      ensures Cleared(later, handle, m.id)
    {
      ClearedLater(versions, later, handle, m.id);
    }
  }

  lemma ListedIsPending(versions: seq<Contents>, later: seq<Contents>, handle: nat, p: Identity, done: set<MessageId>,
                        ms: seq<OutgoingMessage>, m: OutgoingMessage)
    requires versions <= later && HandleShowed(versions, handle, p) && GatheredOutgoing(versions, p, done, ms) && m in ms
    ensures PendingOnHandle(later, handle, m)
  {
    hide ShowsOutbox, HandleShowed;
    HandleShownLater(versions, later, handle, p);
    var row :| ShowsOutbox(versions, p, row, m);
    ShowsOutboxLater(versions, later, p, row, m);
    assert ReadOutgoing(later, p, m);
  }

  lemma PublishedAll(read: seq<Contents>, versions: seq<Contents>, since: nat, handle: nat, sent: map<MessageId, nat>, wait: nat,
                     published: seq<OutgoingMessage>, now: nat, owner: Identity, listed: nat, ms: seq<OutgoingMessage>)
    requires read <= versions && PublishedFrom(read, since, handle, sent, wait, published, now, owner, listed, ms)
    ensures OutboxPublished(versions, since, handle, sent, wait, published, now)
  {
    hide HandleShowed, GatheredOutgoing, AllDuePublished, OutboxIds;
    HandleShownLater(read, versions, handle, owner);
    GatheredOutgoingLater(read, versions, owner, OutboxIds(read[listed].Keys, owner), ms);
    assert read[listed] == versions[listed];
    assert PublishedFrom(versions, since, handle, sent, wait, published, now, owner, listed, ms);
  }

  /** What is not due now was handed over just before, or was not due at first. */
  lemma NotDueYet(was: map<MessageId, nat>, sent: map<MessageId, nat>, wait: nat, published: seq<OutgoingMessage>,
                  id: MessageId, now: nat)
    requires Marked(was, sent, published, now) && forall m :: m in published ==> Due(was, wait, m.id, now)
    ensures Due(sent, wait, id, now) ==> Due(was, wait, id, now)
    ensures !Due(sent, wait, id, now) ==> Published(published, id) || !Due(was, wait, id, now)
  {
    if Published(published, id) {
      var m :| m in published && m.id == id;
      assert Due(was, wait, m.id, now);
    }
  }

  lemma NothingMarked(sent: map<MessageId, nat>, now: nat)
    ensures Marked(sent, sent, [], now)
  {
  }

  /** One more message handed over. */
  lemma PostedToo(was: map<MessageId, nat>, sent: map<MessageId, nat>, published: seq<OutgoingMessage>, m: OutgoingMessage,
                  steps: seq<Step>, own: seq<Step>, wait: nat, now: nat)
    requires ForgetOwn(published, steps) && Marked(was, sent, published, now)
    requires forall s :: s in own ==> s.event.tx.AckOut? && s.event.tx.id == m.id && ReceiptClient(m.client)
    ensures ForgetOwn(published + [m], steps + own) && Marked(was, sent[m.id := now], published + [m], now)
    ensures forall id :: Published(published, id) || id == m.id ==> Published(published + [m], id)
    ensures m in published + [m]
  {
    hide ReceiptClient;
    MarkedAgain(published, m, steps);
    if own != [] {
      assert own[0] in own;
      ForgottenToo(published + [m], m, steps, own);
    } else {
      assert steps + own == steps;
    }
  }

  lemma PublishedSince(versions: seq<Contents>, since: nat, least: nat, handle: nat, sent: map<MessageId, nat>, wait: nat,
                       published: seq<OutgoingMessage>, now: nat)
    requires least <= since && OutboxPublished(versions, since, handle, sent, wait, published, now)
    ensures OutboxPublished(versions, least, handle, sent, wait, published, now)
  {
    hide HandleShowed, GatheredOutgoing, AllDuePublished, OutboxIds;
    var owner: Identity, listed: nat, ms: seq<OutgoingMessage> :|
      PublishedFrom(versions, since, handle, sent, wait, published, now, owner, listed, ms);
    assert PublishedFrom(versions, least, handle, sent, wait, published, now, owner, listed, ms);
  }

  lemma PublishFailedSince(versions: seq<Contents>, since: nat, least: nat, handle: nat, sent: map<MessageId, nat>, wait: nat, now: nat,
                           takes: Post -> bool, published: seq<OutgoingMessage>, steps: seq<Step>, e: PublishError)
    requires least <= since && PublishFailed(versions, since, handle, sent, wait, now, takes, published, steps, e)
    ensures PublishFailed(versions, least, handle, sent, wait, now, takes, published, steps, e)
  {
    hide PendingOnHandle, KeepingFailed, HandleFailed, Named, OutboxRowError, ReceiptClient;
    if e.FromCore? {
      if ForgettingFailed(versions, since, handle, published, steps, e.error) {
        var m :| m in published && ReceiptClient(m.client) && KeepingFailed(UpkeepAckOut, versions, since, handle, m.id, steps, e.error);
        KeepingFailedLater(UpkeepAckOut, versions, versions, since, least, handle, m.id, steps, steps, e.error);
      } else if HandleFailed(versions, since, handle, e.error) {
        HandleFailedLater(versions, versions, since, least, handle, e.error);
      } else {
        var p: Identity, id: MessageId, j: nat, k: nat :|
          Named(versions, since, handle, p) && Within(versions, since, j) && OutboxKey(p, id) in versions[j]
          && j <= k && Within(versions, since, k) && OutboxRowError(versions[k], p, id) == Some(e.error);
        NamedLater(versions, versions, since, least, handle, p);
        assert Within(versions, least, j) && Within(versions, least, k);
      }
    }
  }

  // ── The handshake stored with a session ───────────────────────────────────

  ghost predicate OutboundShown(versions: seq<Contents>, since: nat, handle: nat, stored: Option<Record>) {
    exists p: Identity, k: nat ::
      Named(versions, since, handle, p) && Within(versions, since, k) && Lookup(versions[k], HandshakeKey(p)) == stored
  }

  /** Why the handshake stored with a session cannot be read. */
  ghost predicate OutboundFailed(versions: seq<Contents>, since: nat, handle: nat, e: MessagingError) {
    HandleFailed(versions, since, handle, e) || (e == StoreFailure && OutboundShown(versions, since, handle, Some(Unreadable)))
  }

  /** The session was shown to have accepted a message of its peer, or not to. */
  ghost predicate ConfirmedShown(versions: seq<Contents>, since: nat, our: Identity, handle: nat, confirmed: bool) {
    exists base: SessionState :: Shown(versions, since, our, handle, base) && Established(base) == confirmed
  }

  lemma OutboundIsShown(versions: seq<Contents>, since: nat, handle: nat, p: Identity, j: nat, stored: Option<Record>)
    requires |versions| > 0 && Within(versions, since, j) && Lookup(versions[j], HandleKey(handle)) == Some(HandleRecord(p))
    requires Lookup(versions[|versions| - 1], HandshakeKey(p)) == stored
    ensures OutboundShown(versions, since, handle, stored)
  {
    IsNamed(versions, since, handle, p, j);
    hide Named;
    assert Within(versions, since, |versions| - 1);
  }

  lemma OutboundLater(versions: seq<Contents>, later: seq<Contents>, since: nat, least: nat, handle: nat, stored: Option<Record>)
    requires versions <= later && least <= since && OutboundShown(versions, since, handle, stored)
    ensures OutboundShown(later, least, handle, stored)
  {
    hide Named;
    var p: Identity, k: nat :|
      Named(versions, since, handle, p) && Within(versions, since, k) && Lookup(versions[k], HandshakeKey(p)) == stored;
    NamedLater(versions, later, since, least, handle, p);
    assert Within(later, least, k) && Lookup(later[k], HandshakeKey(p)) == stored;
  }

  lemma OutboundFailedLater(versions: seq<Contents>, later: seq<Contents>, since: nat, least: nat, handle: nat, e: MessagingError)
    requires versions <= later && least <= since && OutboundFailed(versions, since, handle, e)
    ensures OutboundFailed(later, least, handle, e)
  {
    hide HandleFailed, OutboundShown;
    if HandleFailed(versions, since, handle, e) {
      HandleFailedLater(versions, later, since, least, handle, e);
    } else {
      OutboundLater(versions, later, since, least, handle, Some(Unreadable));
    }
  }

  lemma ConfirmedLater(versions: seq<Contents>, later: seq<Contents>, since: nat, least: nat, our: Identity, handle: nat, confirmed: bool)
    requires versions <= later && least <= since && ConfirmedShown(versions, since, our, handle, confirmed)
    ensures ConfirmedShown(later, least, our, handle, confirmed)
  {
    hide Shown, Established;
    var base: SessionState :| Shown(versions, since, our, handle, base) && Established(base) == confirmed;
    ShownLater(versions, later, since, least, our, handle, base);
  }

  /** Nothing of the session's handshake is due: the peer is known to hold it, or
      there is none, or it was handed over lately. */
  ghost predicate NoHandshakeDue(versions: seq<Contents>, since: nat, our: Identity, handle: nat, sent: map<Record, nat>,
                                 wait: nat, now: nat)
  {
    || ConfirmedShown(versions, since, our, handle, true)
    || OutboundShown(versions, since, handle, None)
    || exists record :: OutboundShown(versions, since, handle, Some(record)) && !Due(sent, wait, record, now)
  }

  ghost predicate HandshakeUnpublished(versions: seq<Contents>, since: nat, our: Identity, handle: nat, sent: map<Record, nat>,
                                       wait: nat, now: nat, takes: Post -> bool, e: PublishError)
  {
    match e
    case FromCore(x) => LoadFailed(versions, since, our, handle, x) || OutboundFailed(versions, since, handle, x)
    case NotTaken(PostHandshake(record)) =>
      !takes(e.post) && OutboundShown(versions, since, handle, Some(record)) && Due(sent, wait, record, now)
    case NotTaken(_) => false
  }

  /** Errors after which the envelope is dropped: the ratchet refused it, or the
      prekeys its handshake names are gone. */
  predicate Hopeless(e: MessagingError) {
    e.RatchetFailure? || e.ExhaustedGenerations? || e.PrekeyRefused? || e.ExtraConflict?
  }

  // ── Receiving ─────────────────────────────────────────────────────────────

  /** A handshake was recorded under the handle. */
  ghost predicate RecordedWithin(versions: seq<Contents>, since: nat, handle: nat, q: Identity, h: InitiatorHandshake) {
    exists k: nat :: Within(versions, since, k) && Lookup(versions[k], ProvisionalKey(handle)) == Some(ProvisionalRecord(q, h))
  }

  ghost predicate NoneRecorded(versions: seq<Contents>, since: nat, handle: nat) {
    exists k: nat :: Within(versions, since, k) && ProvisionalKey(handle) !in versions[k]
  }

  /** What reading the recorded handshake answers, if it cannot be read. */
  function ProvisionalError(c: Contents, handle: nat): Option<MessagingError> {
    match Lookup(c, ProvisionalKey(handle))
    case None => None
    case Some(ProvisionalRecord(_, _)) => None
    case Some(Unreadable) => Some(StoreFailure)
    case Some(_) => Some(InvalidRecord)
  }

  ghost predicate RecordUnreadable(versions: seq<Contents>, since: nat, handle: nat, e: MessagingError) {
    exists k: nat :: Within(versions, since, k) && ProvisionalError(versions[k], handle) == Some(e)
  }

  /** Why the first message of the handshake recorded is not accepted. */
  ghost predicate FirstFailed(d: Device, versions: seq<Contents>, since: nat, was: map<nat, Unresolved>, handle: nat,
                              wire: MessageId, newDh: DhKey, attempt: Option<Step>, receipt: Option<Step>, e: MessagingError,
                              q: Identity, h: InitiatorHandshake)
  {
    && RecordedWithin(versions, since, handle, q, h)
    && if d.handleOf(q) == handle then AcceptFailed(d, versions, since, was, q, h, wire, newDh, attempt, receipt, e)
       else attempt.None? && receipt.None? && e == InconsistentStore
  }

  /** Why a message is not received: on the session under the handle; or, while
      there is none, as the first message of the handshake recorded for it. */
  ghost predicate CommittedFailed(d: Device, versions: seq<Contents>, since: nat, was: map<nat, Unresolved>, handle: nat,
                                  wire: MessageId, newDh: DhKey, attempt: Option<Step>, receipt: Option<Step>, e: MessagingError)
  {
    || (e != NoSession && HandleFailed(versions, since, handle, e))
    || (attempt.None? && ReceiveFailed(d, versions, since, was, handle, wire, newDh, receipt, e)
        && (|| SlotTaken(versions, since, handle)
            || (HandleFailed(versions, since, handle, NoSession) && NoneRecorded(versions, since, handle))))
    || (HandleFailed(versions, since, handle, NoSession)
        && (|| RecordUnreadable(versions, since, handle, e)
            || exists q: Identity, h: InitiatorHandshake ::
                 FirstFailed(d, versions, since, was, handle, wire, newDh, attempt, receipt, e, q, h)))
  }

  /** The steps of a receive are transactions it performed. */
  ghost predicate Performed(d: Device, newDh: DhKey, before: seq<Contents>, after: seq<Contents>, handle: nat, wire: MessageId,
                            attempt: Option<Step>, receipt: Option<Step>)
  {
    && (attempt.Some? ==>
          var s := attempt.value;
          && TookWithin(d, newDh, before, after, s) && s.event.tx.Accept? && s.event.tx.wire == wire
          && RecordedWithin(after, |before|, handle, s.event.tx.peer, s.event.tx.handshake))
    && (receipt.Some? ==>
          var s := receipt.value;
          && TookWithin(d, newDh, before, after, s) && s.event.tx.Receive? && s.event.tx.wire == wire
          && Named(after, |before|, handle, s.event.tx.base.peer))
  }

  lemma TookWithinSince(d: Device, next: nat, earlier: seq<Contents>, before: seq<Contents>, after: seq<Contents>, s: Step)
    requires earlier <= before && TookWithin(d, next, before, after, s)
    ensures TookWithin(d, next, earlier, after, s)
  {
    hide Took;
    TookSince(d, next, earlier, before, after[..s.at + 2], s);
  }

  /** Only an unknown outcome is remembered. */
  predicate Remembered(was: map<nat, Unresolved>, now: map<nat, Unresolved>, r: Result<Received, MessagingError>) {
    now == was || (r.Err? && r.error.UnknownOutcome?)
  }

  lemma NothingRemembered(was: map<nat, Unresolved>, r: Result<Received, MessagingError>)
    ensures Remembered(was, was, r)
  {
  }

  lemma TookIsFormed(d: Device, next: nat, before: seq<Contents>, after: seq<Contents>, s: Step)
    requires TookWithin(d, next, before, after, s)
    ensures Formed(d, next, s.event.tx) && s.at + 2 <= |after|
  {
    hide Formed, After, Reads;
  }

  lemma ReceiveRemembers(d: Device, next: nat, was: map<nat, Unresolved>, now: map<nat, Unresolved>, handle: nat,
                         versions: seq<Contents>, found: Contents, e: Event, r: Result<Received, MessagingError>)
    requires e.tx.Receive? && Formed(d, next, e.tx) && ReceiveDone(d, next, was, now, handle, versions, found, e, r)
    ensures Remembered(was, now, r)
  {
    hide Formed, Fires, StagedReceive, ReadAsDuplicate;
  }

  lemma AcceptRemembers(d: Device, was: map<nat, Unresolved>, now: map<nat, Unresolved>, found: Contents, e: Event,
                        r: Result<Received, MessagingError>)
    requires e.tx.Accept? && Formed(d, e.tx.newDh, e.tx) && AcceptDone(d, was, now, found, e, r)
    ensures Remembered(was, now, r)
  {
    hide Formed, Fires, StagedReceive, Candidate;
  }

  lemma RecoverFailedSince(d: Device, versions: seq<Contents>, since: nat, least: nat, u: Unresolved, handle: nat, e: MessagingError)
    requires least <= since && RecoverFailed(d, versions, since, u, handle, e)
    ensures RecoverFailed(d, versions, least, u, handle, e)
  {
    hide LoadFailed, RetiredSince;
    WithinSince(versions, since, least);
    if LoadFailed(versions, since, d.our, handle, e) {
      LoadFailedLater(versions, versions, since, least, d.our, handle, e);
    }
  }

  /** The handle named a peer, and the message was not received on its session. */
  lemma OnSessionFails(d: Device, versions: seq<Contents>, since: nat, least: nat, was: map<nat, Unresolved>, handle: nat, q: Identity,
                       j: nat, wire: MessageId, newDh: DhKey, receipt: Option<Step>, e: MessagingError)
    requires least <= since && ReceiveFailed(d, versions, since, was, handle, wire, newDh, receipt, e)
    requires Within(versions, least, j) && Lookup(versions[j], HandleKey(handle)) == Some(HandleRecord(q))
    ensures CommittedFailed(d, versions, least, was, handle, wire, newDh, None, receipt, e)
  {
    IsNamed(versions, least, handle, q, j);
    hide ReceiveFailed, HandleFailed, Named, NoneRecorded, RecordUnreadable, FirstFailed;
    ReceiveFailedLater(d, versions, versions, since, least, was, handle, wire, newDh, receipt, e);
  }

  /** The handle named nobody, and no handshake was recorded. */
  lemma UnannouncedFails(d: Device, versions: seq<Contents>, since: nat, least: nat, was: map<nat, Unresolved>, handle: nat,
                         i: nat, j: nat, wire: MessageId, newDh: DhKey, receipt: Option<Step>, e: MessagingError)
    requires least <= since && ReceiveFailed(d, versions, since, was, handle, wire, newDh, receipt, e)
    requires Within(versions, least, i) && HandleError(versions[i], handle) == Some(NoSession)
    requires Within(versions, least, j) && ProvisionalKey(handle) !in versions[j]
    ensures CommittedFailed(d, versions, least, was, handle, wire, newDh, None, receipt, e)
  {
    HandleFails(versions, least, handle, i, NoSession);
    assert NoneRecorded(versions, least, handle);
    hide ReceiveFailed, HandleFailed, SlotTaken, NoneRecorded, RecordUnreadable, FirstFailed;
    ReceiveFailedLater(d, versions, versions, since, least, was, handle, wire, newDh, receipt, e);
  }

  /** A handshake was recorded, and the message was not accepted under it. */
  lemma AnnouncedFails(d: Device, versions: seq<Contents>, since: nat, least: nat, was: map<nat, Unresolved>, handle: nat,
                       i: nat, j: nat, q: Identity, h: InitiatorHandshake, wire: MessageId, newDh: DhKey,
                       attempt: Option<Step>, receipt: Option<Step>, e: MessagingError)
    requires least <= since
    requires Within(versions, least, i) && HandleError(versions[i], handle) == Some(NoSession)
    requires Within(versions, least, j) && Lookup(versions[j], ProvisionalKey(handle)) == Some(ProvisionalRecord(q, h))
    requires if d.handleOf(q) == handle then AcceptFailed(d, versions, since, was, q, h, wire, newDh, attempt, receipt, e)
             else attempt.None? && receipt.None? && e == InconsistentStore
    ensures CommittedFailed(d, versions, least, was, handle, wire, newDh, attempt, receipt, e)
  {
    HandleFails(versions, least, handle, i, NoSession);
    assert RecordedWithin(versions, least, handle, q, h);
    hide AcceptFailed, RecordedWithin, ReceiveFailed, HandleFailed, SlotTaken, NoneRecorded, RecordUnreadable;
    if d.handleOf(q) == handle {
      AcceptFailedLater(d, versions, versions, since, least, was, q, h, wire, newDh, attempt, receipt, e);
    }
    assert FirstFailed(d, versions, least, was, handle, wire, newDh, attempt, receipt, e, q, h);
  }

  /** The handle, or the handshake recorded under it, cannot be read. */
  lemma UnreadableFails(d: Device, versions: seq<Contents>, since: nat, was: map<nat, Unresolved>, handle: nat, i: nat, j: nat,
                        wire: MessageId, newDh: DhKey, e: MessagingError)
    requires Within(versions, since, i)
    requires || (e != NoSession && HandleError(versions[i], handle) == Some(e))
             || (HandleError(versions[i], handle) == Some(NoSession)
                 && Within(versions, since, j) && ProvisionalError(versions[j], handle) == Some(e))
    ensures CommittedFailed(d, versions, since, was, handle, wire, newDh, None, None, e)
  {
    hide ReceiveFailed, SlotTaken, NoneRecorded, FirstFailed, HandleError, ProvisionalError;
    HandleFails(versions, since, handle, i, HandleError(versions[i], handle).value);
  }

  // ── What nothing can ever come of ─────────────────────────────────────────

  ghost predicate CandidateHopeless(d: Device, versions: seq<Contents>, since: nat, handle: nat, wire: MessageId,
                                    newDh: DhKey, x: StageError)
  {
    exists q: Identity, h: InitiatorHandshake ::
      RecordedWithin(versions, since, handle, q, h) && CandidateRefuses(d, versions, since, h, wire, newDh, x)
  }

  ghost predicate AnswerHopeless(versions: seq<Contents>, since: nat, handle: nat, x: PrekeyRefusal) {
    exists q: Identity, h: InitiatorHandshake :: RecordedWithin(versions, since, handle, q, h) && Unanswered(versions, since, h, x)
  }

  /** Why a message is dropped unheld: its session is at its last generation; it
      does not open on that session, or on what a handshake recorded derives; or
      the handshake recorded cannot be answered, or no more. */
  ghost predicate HopelessFor(d: Device, versions: seq<Contents>, since: nat, handle: nat, wire: MessageId, newDh: DhKey,
                              e: MessagingError)
  {
    match e
    case ExhaustedGenerations => SessionExhausted(versions, since, d.our, handle)
    case RatchetFailure(x) =>
      || ReceiveRefused(versions, since, d.our, handle, wire, newDh, x)
      || CandidateHopeless(d, versions, since, handle, wire, newDh, x)
    case PrekeyRefused(x) => HandleFailed(versions, since, handle, NoSession) && AnswerHopeless(versions, since, handle, x)
    case ExtraConflict(_, _) =>
      PrekeysSpent(versions, since) && exists q: Identity, h: InitiatorHandshake :: RecordedWithin(versions, since, handle, q, h)
    case _ => false
  }

  ghost predicate HopelessCause(d: Device, versions: seq<Contents>, since: nat, handle: nat, wire: MessageId, e: MessagingError) {
    exists newDh: DhKey :: HopelessFor(d, versions, since, handle, wire, newDh, e)
  }

  lemma TakenHopeless(d: Device, versions: seq<Contents>, since: nat, was: map<nat, Unresolved>, handle: nat,
                      wire: MessageId, newDh: DhKey,
                      receipt: Option<Step>, e: MessagingError)
    requires Hopeless(e) && TakenFailed(d, versions, since, was, handle, wire, newDh, receipt, e)
    ensures HopelessFor(d, versions, since, handle, wire, newDh, e)
  {
    hide SessionExhausted, ReceiveRefused, CandidateHopeless, SlotTaken;
    LoadErrors(versions, since, d.our, handle, e);
  }

  lemma FirstHopeless(d: Device, versions: seq<Contents>, since: nat, was: map<nat, Unresolved>, handle: nat,
                      wire: MessageId, newDh: DhKey,
                      attempt: Option<Step>, receipt: Option<Step>, e: MessagingError, q: Identity, h: InitiatorHandshake)
    requires Hopeless(e) && FirstFailed(d, versions, since, was, handle, wire, newDh, attempt, receipt, e, q, h)
    ensures HopelessFor(d, versions, since, handle, wire, newDh, e)
  {
    hide RecordedWithin, TakenFailed, Overtaken, Unanswered, Unanswerable, CandidateRefuses, PrekeysSpent, HandleFailed, NoPrekeys,
         SessionExhausted, ReceiveRefused, NamesAnother;
    if TakenFailed(d, versions, since, was, handle, wire, newDh, receipt, e) {
      TakenHopeless(d, versions, since, was, handle, wire, newDh, receipt, e);
    }
  }

  /** An error that drops a message has a cause that does not go away. */
  lemma HopelessIsCaused(d: Device, versions: seq<Contents>, since: nat, was: map<nat, Unresolved>, handle: nat, wire: MessageId,
                         newDh: DhKey, attempt: Option<Step>, receipt: Option<Step>, e: MessagingError)
    requires Hopeless(e) && CommittedFailed(d, versions, since, was, handle, wire, newDh, attempt, receipt, e)
    ensures HopelessCause(d, versions, since, handle, wire, e)
  {
    hide ReceiveFailed, SlotTaken, NoneRecorded, FirstFailed, HopelessFor, HandleFailed, RecordUnreadable;
    LoadErrors(versions, since, d.our, handle, e);
    UnreadableErrors(versions, since, handle, e);
    if ReceiveFailed(d, versions, since, was, handle, wire, newDh, receipt, e) {
      ReceiveHopeless(d, versions, since, was, handle, wire, newDh, receipt, e);
    } else {
      var q: Identity, h: InitiatorHandshake :|
        FirstFailed(d, versions, since, was, handle, wire, newDh, attempt, receipt, e, q, h);
      FirstHopeless(d, versions, since, was, handle, wire, newDh, attempt, receipt, e, q, h);
    }
  }

  lemma ReceiveHopeless(d: Device, versions: seq<Contents>, since: nat, was: map<nat, Unresolved>, handle: nat, wire: MessageId,
                        newDh: DhKey, receipt: Option<Step>, e: MessagingError)
    requires Hopeless(e) && ReceiveFailed(d, versions, since, was, handle, wire, newDh, receipt, e)
    ensures HopelessFor(d, versions, since, handle, wire, newDh, e)
  {
    hide SessionExhausted, ReceiveRefused, CandidateHopeless, HandleFailed, SessionFailed, DuplicateFailed;
  }

  lemma UnreadableErrors(versions: seq<Contents>, since: nat, handle: nat, e: MessagingError)
    ensures RecordUnreadable(versions, since, handle, e) ==> e.StoreFailure? || e.InvalidRecord?
  {
  }

  /** A message that arrives before its handshake is kept: while nothing is stored
      under the handle, receiving it answers that there is no session, unless an
      earlier commit of this instance is still unresolved. */
  lemma EarlyMessageIsKept(d: Device, before: seq<Contents>, versions: seq<Contents>, was: map<nat, Unresolved>, handle: nat,
                           wire: MessageId, newDh: DhKey, attempt: Option<Step>, receipt: Option<Step>, e: MessagingError)
    requires forall k: nat :: Within(versions, |before|, k) ==>
               HandleKey(handle) !in versions[k] && ProvisionalKey(handle) !in versions[k]
    requires Performed(d, newDh, before, versions, handle, wire, attempt, receipt)
    requires CommittedFailed(d, versions, |before|, was, handle, wire, newDh, attempt, receipt, e)
    ensures !Hopeless(e) && (e == NoSession || Unresolvable(was, handle, e))
  {
    hide TookWithin, AcceptFailed, SessionLoadError, PriorError, DuplicateError, WellFormed, CannotDecrypt, Storable;
    assert !SlotTaken(versions, |before|, handle);
    assert forall q, h :: !RecordedWithin(versions, |before|, handle, q, h);
    assert forall x :: HandleFailed(versions, |before|, handle, x) ==> x == NoSession;
  }

  // ── Deciding about envelopes ──────────────────────────────────────────────

  /** What processing an envelope decides; `Abort` ends the round with an error. */
  datatype Fate = Discard | Keep | Abort

  /** Why. A handshake is `Refused` while there is no session, or by the legacy
      session that stays. */
  datatype Reason =
    | Undecodable
    | Unpinned
    | NotOwn
    | HasSession(conflict: bool)
    | Recorded
    | Refused(error: MessagingError, legacy: bool)
    | HeldHere(received: Received)
    | Failed(error: MessagingError)

  datatype Decision = Decision(fate: Fate, reason: Reason)

  /** Errors after which the same input may succeed later. */
  predicate Transient(e: MessagingError) {
    || e.StoreFailure? || e.KeptNothing? || e.Conflicting? || e.UnknownOutcome? || e.RepeatableOutcomeUnknown?
    || e.StillUnresolved? || e.ExtraConflict? || e.SideWriteRefused? || e.PrekeysUnavailable?
  }

  /** There is no session there that could be read. */
  predicate NotASession(e: MessagingError) {
    e.NoSession? || e.MissingSession? || e.InvalidSession?
  }

  /** The bytes of an envelope, as the layers below read them, and the contacts. */
  datatype Reading = Reading(identity: Key32 -> Identity, wire: Bytes -> MessageId, handshake: Bytes -> InitiatorHandshake,
                             pinned: Identity -> bool)

  /** The prekeys held answered the handshake. */
  ghost predicate Answerable(versions: seq<Contents>, since: nat, handshake: InitiatorHandshake) {
    handshake.InitiatorHandshake? &&
      exists prekeys: Prekeys :: PrekeysHeld(versions, since, prekeys) && CheckAnswerable(prekeys, handshake).None?
  }

  ghost predicate LegacyShown(versions: seq<Contents>, since: nat, our: Identity, handle: nat) {
    exists base: SessionState :: Shown(versions, since, our, handle, base) && LegacyUnconfirmed(base)
  }

  /** The session was shown not to be a legacy one, or not to be readable. */
  ghost predicate NoLegacyShown(versions: seq<Contents>, since: nat, our: Identity, handle: nat) {
    || ShownNotLegacy(versions, since, our, handle)
    || exists e: MessagingError ::
         (e.NoSession? || e.MissingSession? || e.InvalidSession?) && LoadFailed(versions, since, our, handle, e)
  }

  /** Whether both sides started a session: ours was shown unconfirmed, with the
      handshake it was started with. */
  ghost predicate ConflictShown(versions: seq<Contents>, since: nat, our: Identity, handle: nat, conflict: bool) {
    if conflict then
      ConfirmedShown(versions, since, our, handle, false) && exists record :: OutboundShown(versions, since, handle, Some(record))
    else
      ConfirmedShown(versions, since, our, handle, true) || OutboundShown(versions, since, handle, None)
  }

  /** Why a handshake is not recorded. */
  ghost predicate EstablishFailed(d: Device, versions: seq<Contents>, since: nat, was: map<nat, Unresolved>, p: Identity,
                                  handshake: InitiatorHandshake, step: Option<Step>, e: MessagingError)
  {
    || (e == PrekeysUnavailable && NoPrekeys(versions, since))
    || (e.PrekeyRefused? && Unanswered(versions, since, handshake, e.refusal))
    || (Answerable(versions, since, handshake)
        && exists prekeys: Prekeys :: PrekeysHeld(versions, since, prekeys) && RecordFailed(d, versions, since, was, p, prekeys, step, e))
  }

  /** Why a handshake is refused for good: the prekeys held cannot answer it, or
      what is stored under the handle is not to be replaced. */
  ghost predicate RefusedFor(d: Device, versions: seq<Contents>, since: nat, p: Identity, handshake: InitiatorHandshake,
                             e: MessagingError)
  {
    var handle := d.handleOf(p);
    || (e.PrekeyRefused? && Unanswered(versions, since, handshake, e.refusal))
    || (e == HandleCollision && NamesAnother(versions, since, handle, p))
    || (e == SessionExists && (SessionStored(versions, since, p) || NoLegacyShown(versions, since, d.our, handle)))
    || (e == SessionNotRetirable && ShownObliged(d, versions, since, handle))
    || ((e == InvalidRecord || e == NoSession) && LoadFailed(versions, since, d.our, handle, e))
  }

  lemma RefusedIsCaused(d: Device, versions: seq<Contents>, since: nat, was: map<nat, Unresolved>, p: Identity,
                        handshake: InitiatorHandshake, step: Option<Step>, e: MessagingError)
    requires EstablishFailed(d, versions, since, was, p, handshake, step, e) && !Transient(e)
    ensures RefusedFor(d, versions, since, p, handshake, e)
  {
    hide NoPrekeys, Unanswered, Answerable, PrekeysHeld, HandleFailed, NamesAnother, SessionStored, ShownNotLegacy, ShownObliged,
         ShownOvertaken, SessionFailed;
    LoadErrors(versions, since, d.our, d.handleOf(p), e);
    if !e.PrekeyRefused? {
      var prekeys: Prekeys :| PrekeysHeld(versions, since, prekeys) && RecordFailed(d, versions, since, was, p, prekeys, step, e);
      if x: MessagingError :| (x == MissingSession || x.InvalidSession?) && SessionFailed(versions, since, d.our, d.handleOf(p), x) {
        SessionFailedLoad(versions, since, d.our, d.handleOf(p), x);
      }
    }
  }

  lemma SessionFailedLoad(versions: seq<Contents>, since: nat, our: Identity, handle: nat, e: MessagingError)
    requires SessionFailed(versions, since, our, handle, e)
    ensures LoadFailed(versions, since, our, handle, e)
  {
    hide SessionFailed;
  }

  /** The minute of the clock, of which the next can still be written down. */
  type Minute = m: nat | m < U64_MAX

  /** What dropping a message that was received says: it was acted on, or, the
      second time, its receipt is on record. */
  ghost predicate ReceivedFor(digest: MessageId -> Key32, versions: seq<Contents>, since: nat, handle: nat, wire: MessageId,
                              minute: Minute,
                              received: Received)
  {
    match received
    case Accepted(m) => m.id == wire && Settled(versions, handle, W.ReceiptId(digest(wire), 0), m)
    case Duplicate(id, _) =>
      id == wire
      && ReceiptRepeated(versions, since, handle, W.ReceiptId(digest(wire), 0), W.ReceiptId(digest(wire), minute + 1))
  }

  /** What dropping an envelope says, of the versions from `since` on: its sender is
      no contact; it is a handshake that is recorded, not the sender's own, refused
      for good, or of no use because a session exists; or it is a message the store
      holds and that was acted on, or one that nothing can ever come of. */
  ghost predicate Deserved(device: Device, digest: MessageId -> Key32, reading: Reading, versions: seq<Contents>,
                           since: nat, minute: Minute,
                           e: W.Envelope, d: Decision)
  {
    var p := reading.identity(e.sender);
    var handle := device.handleOf(p);
    && (d.reason.Unpinned? <==> !reading.pinned(p))
    && (d.fate.Discard? ==>
      match d.reason
      case Unpinned => true
      case Undecodable => false
      case HeldHere(received) =>
        && e.MessageEnvelope? && (Consistent(versions, handle, p) ==> Held(versions, p, reading.wire(e.body)))
        && ReceivedFor(digest, versions, since, handle, reading.wire(e.body), minute, received)
      case Failed(error) =>
        e.MessageEnvelope? && Hopeless(error) && HopelessCause(device, versions, since, handle, reading.wire(e.body), error)
      case _ => e.HandshakeEnvelope? && HandshakeDropped(device, versions, since, p, reading.handshake(e.body), d.reason))
  }

  ghost predicate HandshakeDropped(d: Device, versions: seq<Contents>, since: nat, p: Identity,
                                   handshake: InitiatorHandshake, reason: Reason)
  {
    var handle := d.handleOf(p);
    match reason
    case NotOwn => handshake.MalformedHandshake? || handshake.identity != p
    case HasSession(conflict) =>
      && SlotTaken(versions, since, handle) && NoLegacyShown(versions, since, d.our, handle)
      && ConflictShown(versions, since, d.our, handle, conflict)
    case Recorded =>
      && RecordedWithin(versions, since, handle, p, handshake) && Answerable(versions, since, handshake)
      && (StoodBefore(versions, since, d.our, handle, false) || StoodBefore(versions, since, d.our, handle, true))
    case Refused(e, legacy) =>
      !Transient(e) && RefusedFor(d, versions, since, p, handshake, e) && StoodBefore(versions, since, d.our, handle, legacy)
    case _ => false
  }

  /** What stood under the handle when the handshake came: a legacy session, or
      nothing. */
  ghost predicate StoodBefore(versions: seq<Contents>, since: nat, our: Identity, handle: nat, legacy: bool) {
    if legacy then LegacyShown(versions, since, our, handle) else HandleFailed(versions, since, handle, NoSession)
  }

  predicate Readable(c: Contents, handle: nat) {
    var e := HandleError(c, handle);
    e.None? || e.value == NoSession
  }

  /** The handle could be read, if only to find it free. */
  ghost predicate HandleReadable(versions: seq<Contents>, since: nat, handle: nat) {
    exists k: nat :: Within(versions, since, k) && Readable(versions[k], handle)
  }

  lemma ReadableNow(versions: seq<Contents>, since: nat, handle: nat)
    requires |versions| > 0 && since <= |versions|
    requires var found := Lookup(versions[|versions| - 1], HandleKey(handle)); found.None? || found.value.HandleRecord?
    ensures HandleReadable(versions, since, handle)
  {
    assert Within(versions, since, |versions| - 1) && Readable(versions[|versions| - 1], handle);
  }

  lemma ReadableLater(versions: seq<Contents>, later: seq<Contents>, since: nat, handle: nat)
    requires versions <= later && HandleReadable(versions, since, handle)
    ensures HandleReadable(later, since, handle)
  {
    hide Readable;
    var k: nat :| Within(versions, since, k) && Readable(versions[k], handle);
    assert Within(later, since, k) && Readable(later[k], handle);
  }

  /** Why a message is left on the relay for now. */
  ghost predicate MessageKept(d: Device, before: seq<Contents>, versions: seq<Contents>, was: map<nat, Unresolved>, handle: nat,
                              wire: MessageId, e: MessagingError)
  {
    !Hopeless(e) &&
      exists newDh: DhKey, attempt: Option<Step>, receipt: Option<Step> ::
        Performed(d, newDh, before, versions, handle, wire, attempt, receipt)
        && CommittedFailed(d, versions, |before|, was, handle, wire, newDh, attempt, receipt, e)
  }

  /** Why a message ends the round: it is held, and could not be acted on; or
      the handle could not be read, or an unresolved session not recovered. */
  ghost predicate MessageAborted(d: Device, digest: MessageId -> Key32, before: seq<Contents>, versions: seq<Contents>,
                                 was: map<nat, Unresolved>, handle: nat, p: Identity, minute: Minute, reason: Reason)
  {
    match reason
    case HeldHere(received) =>
      exists steps: seq<Step>, x: MessagingError ::
        AllKeepRule(d, handle, p, before, versions, steps)
        && ActingFailed(d, digest, versions, |before|, was, handle, minute, received, steps, x)
    case Failed(e) =>
      || (e != NoSession && HandleFailed(versions, |before|, handle, e))
      || (Unresolvable(was, handle, e) && exists x: MessagingError :: RecoverFailed(d, versions, |before|, was[handle], handle, x))
    case _ => false
  }

  ghost predicate ActingFailed(d: Device, digest: MessageId -> Key32, versions: seq<Contents>, since: nat, was: map<nat, Unresolved>,
                               handle: nat, minute: Minute, received: Received, steps: seq<Step>, x: MessagingError)
  {
    match received
    case Accepted(m) => SettleFailed(d, versions, since, was, handle, W.ReceiptId(digest(m.id), 0), m, steps, x)
    case Duplicate(id, _) =>
      AgainFailed(d, versions, since, was, handle, W.ReceiptId(digest(id), 0), W.ReceiptId(digest(id), minute + 1), steps, x)
  }

  /** Why a handshake is left on the relay for now. */
  ghost predicate HandshakeKept(d: Device, before: seq<Contents>, versions: seq<Contents>, was: map<nat, Unresolved>, p: Identity,
                                handshake: InitiatorHandshake, e: MessagingError)
  {
    && (|| e == StoreFailure || e == PrekeysUnavailable || e == KeptNothing || e.Conflicting? || e.StillUnresolved?
        || e.RepeatableOutcomeUnknown? || e.UnknownOutcome?)
    && exists step: Option<Step> ::
         (step.Some? ==> TookWithin(d, 0, before, versions, step.value))
         && EstablishFailed(d, versions, |before|, was, p, handshake, step, e)
  }

  /** Why a handshake ends the round: what is stored under the handle could not be
      read. */
  ghost predicate HandshakeAborted(versions: seq<Contents>, since: nat, our: Identity, handle: nat, e: MessagingError) {
    || (e != NoSession && HandleFailed(versions, since, handle, e))
    || (SlotTaken(versions, since, handle)
        && (|| (!e.NoSession? && !e.MissingSession? && !e.InvalidSession? && LoadFailed(versions, since, our, handle, e))
            || (NoLegacyShown(versions, since, our, handle)
                && (OutboundFailed(versions, since, handle, e) || LoadFailed(versions, since, our, handle, e)))))
  }

  /** Why an envelope stays on the relay, or ends the round. */
  ghost predicate LeftOnRelay(device: Device, digest: MessageId -> Key32, reading: Reading, before: seq<Contents>,
                              versions: seq<Contents>,
                              was: map<nat, Unresolved>, minute: Minute, e: W.Envelope, d: Decision)
  {
    var p := reading.identity(e.sender);
    var handle := device.handleOf(p);
    match d.fate
    case Discard => true
    case Keep =>
      && d.reason.Failed?
      && (if e.MessageEnvelope? then MessageKept(device, before, versions, was, handle, reading.wire(e.body), d.reason.error)
          else HandshakeKept(device, before, versions, was, p, reading.handshake(e.body), d.reason.error))
    case Abort =>
      if e.MessageEnvelope? then MessageAborted(device, digest, before, versions, was, handle, p, minute, d.reason)
      else d.reason.Failed? && HandshakeAborted(versions, |before|, device.our, handle, d.reason.error)
  }

  // ── What holds of fewer versions holds of more ────────────────────────────

  lemma RecordedLater(versions: seq<Contents>, later: seq<Contents>, since: nat, least: nat, handle: nat, q: Identity,
                      h: InitiatorHandshake)
    requires versions <= later && least <= since && RecordedWithin(versions, since, handle, q, h)
    ensures RecordedWithin(later, least, handle, q, h)
  {
    var k: nat :| Within(versions, since, k) && Lookup(versions[k], ProvisionalKey(handle)) == Some(ProvisionalRecord(q, h));
    assert Within(later, least, k) && Lookup(later[k], ProvisionalKey(handle)) == Some(ProvisionalRecord(q, h));
  }

  lemma ExhaustedLater(versions: seq<Contents>, later: seq<Contents>, since: nat, least: nat, our: Identity, handle: nat)
    requires versions <= later && least <= since && SessionExhausted(versions, since, our, handle)
    ensures SessionExhausted(later, least, our, handle)
  {
    hide Shown;
    var base: SessionState :| Shown(versions, since, our, handle, base) && base.generation == U64_MAX;
    ShownLater(versions, later, since, least, our, handle, base);
  }

  lemma ReceiveRefusedLater(versions: seq<Contents>, later: seq<Contents>, since: nat, least: nat, our: Identity, handle: nat,
                            wire: MessageId, newDh: DhKey, x: StageError)
    requires versions <= later && least <= since && ReceiveRefused(versions, since, our, handle, wire, newDh, x)
    ensures ReceiveRefused(later, least, our, handle, wire, newDh, x)
  {
    hide Shown, CannotDecrypt;
    var base: SessionState :|
      Shown(versions, since, our, handle, base) && WellFormed(base.ratchet) && CannotDecrypt(base, wire, newDh, x);
    ShownLater(versions, later, since, least, our, handle, base);
  }

  lemma HopelessLater(d: Device, versions: seq<Contents>, later: seq<Contents>, since: nat, least: nat, handle: nat, wire: MessageId,
                      e: MessagingError)
    requires versions <= later && least <= since && HopelessCause(d, versions, since, handle, wire, e)
    ensures HopelessCause(d, later, least, handle, wire, e)
  {
    hide SessionExhausted, ReceiveRefused, RecordedWithin, CandidateRefuses, Unanswered, HandleFailed, PrekeysSpent;
    var newDh: DhKey :| HopelessFor(d, versions, since, handle, wire, newDh, e);
    match e {
      case ExhaustedGenerations => ExhaustedLater(versions, later, since, least, d.our, handle);
      case RatchetFailure(x) =>
        if ReceiveRefused(versions, since, d.our, handle, wire, newDh, x) {
          ReceiveRefusedLater(versions, later, since, least, d.our, handle, wire, newDh, x);
        } else {
          var q: Identity, h: InitiatorHandshake :|
            RecordedWithin(versions, since, handle, q, h) && CandidateRefuses(d, versions, since, h, wire, newDh, x);
          RecordedLater(versions, later, since, least, handle, q, h);
          CandidateRefusesLater(d, versions, later, since, least, h, wire, newDh, x);
        }
      case PrekeyRefused(x) =>
        var q: Identity, h: InitiatorHandshake :| RecordedWithin(versions, since, handle, q, h) && Unanswered(versions, since, h, x);
        HandleFailedLater(versions, later, since, least, handle, NoSession);
        RecordedLater(versions, later, since, least, handle, q, h);
        UnansweredLater(versions, later, since, least, h, x);
      case ExtraConflict(_, _) =>
        var q: Identity, h: InitiatorHandshake :| RecordedWithin(versions, since, handle, q, h);
        RecordedLater(versions, later, since, least, handle, q, h);
        PrekeysSpentLater(versions, later, since, least);
    }
    assert HopelessFor(d, later, least, handle, wire, newDh, e);
  }

  lemma ReceivedForLater(digest: MessageId -> Key32, versions: seq<Contents>, later: seq<Contents>, since: nat, least: nat, handle: nat,
                         wire: MessageId, minute: Minute, received: Received)
    requires versions <= later && least <= since
    requires ReceivedFor(digest, versions, since, handle, wire, minute, received)
    ensures ReceivedFor(digest, later, least, handle, wire, minute, received)
  {
    hide Settled, ReceiptRepeated;
    match received
    case Accepted(m) => SettledLater(versions, later, handle, W.ReceiptId(digest(wire), 0), m);
    case Duplicate(_, _) =>
      ReceiptRepeatedLater(versions, later, since, least, handle, W.ReceiptId(digest(wire), 0), W.ReceiptId(digest(wire), minute + 1));
  }

  lemma AnswerableLater(versions: seq<Contents>, later: seq<Contents>, since: nat, least: nat, handshake: InitiatorHandshake)
    requires versions <= later && least <= since && Answerable(versions, since, handshake)
    ensures Answerable(later, least, handshake)
  {
    hide PrekeysHeld, CheckAnswerable;
    var prekeys: Prekeys :| PrekeysHeld(versions, since, prekeys) && CheckAnswerable(prekeys, handshake).None?;
    PrekeysHeldLater(versions, later, since, least, prekeys);
  }

  lemma LegacyLater(versions: seq<Contents>, later: seq<Contents>, since: nat, least: nat, our: Identity, handle: nat)
    requires versions <= later && least <= since
    ensures LegacyShown(versions, since, our, handle) ==> LegacyShown(later, least, our, handle)
    ensures NoLegacyShown(versions, since, our, handle) ==> NoLegacyShown(later, least, our, handle)
  {
    hide Shown, LegacyUnconfirmed, LoadFailed;
    forall base: SessionState | Shown(versions, since, our, handle, base)
      ensures Shown(later, least, our, handle, base)
    {
      ShownLater(versions, later, since, least, our, handle, base);
    }
    forall e | LoadFailed(versions, since, our, handle, e)
      ensures LoadFailed(later, least, our, handle, e)
    {
      LoadFailedLater(versions, later, since, least, our, handle, e);
    }
  }

  lemma ConflictLater(versions: seq<Contents>, later: seq<Contents>, since: nat, least: nat, our: Identity, handle: nat, conflict: bool)
    requires versions <= later && least <= since && ConflictShown(versions, since, our, handle, conflict)
    ensures ConflictShown(later, least, our, handle, conflict)
  {
    hide ConfirmedShown, OutboundShown;
    if ConfirmedShown(versions, since, our, handle, !conflict) {
      ConfirmedLater(versions, later, since, least, our, handle, !conflict);
    }
    forall stored | OutboundShown(versions, since, handle, stored)
      ensures OutboundShown(later, least, handle, stored)
    {
      OutboundLater(versions, later, since, least, handle, stored);
    }
  }

  lemma ObligedLater(d: Device, versions: seq<Contents>, later: seq<Contents>, since: nat, least: nat, handle: nat)
    requires versions <= later && least <= since && ShownObliged(d, versions, since, handle)
    ensures ShownObliged(d, later, least, handle)
  {
    hide Shown, Obliged;
    var base: SessionState, k: nat :|
      Shown(versions, since, d.our, handle, base) && Within(versions, since, k) && Obliged(d, versions[k], base.peer);
    ShownLater(versions, later, since, least, d.our, handle, base);
    assert Within(later, least, k) && Obliged(d, later[k], base.peer);
  }

  lemma RefusedForLater(d: Device, versions: seq<Contents>, later: seq<Contents>, since: nat, least: nat, p: Identity,
                        handshake: InitiatorHandshake, e: MessagingError)
    requires versions <= later && least <= since && RefusedFor(d, versions, since, p, handshake, e)
    ensures RefusedFor(d, later, least, p, handshake, e)
  {
    hide Unanswered, NamesAnother, NoLegacyShown, ShownObliged, LoadFailed;
    var handle := d.handleOf(p);
    if e == InvalidRecord || e == NoSession {
      LoadFailedLater(versions, later, since, least, d.our, handle, e);
    } else if e.PrekeyRefused? {
      UnansweredLater(versions, later, since, least, handshake, e.refusal);
    } else if e == HandleCollision {
      NamesAnotherLater(versions, later, since, least, handle, p);
    } else if e == SessionNotRetirable {
      ObligedLater(d, versions, later, since, least, handle);
    } else if SessionStored(versions, since, p) {
      var k: nat :| Within(versions, since, k) && SessionKey(p) in versions[k];
      assert Within(later, least, k) && SessionKey(p) in later[k];
    } else {
      LegacyLater(versions, later, since, least, d.our, handle);
    }
  }

  lemma DroppedLater(d: Device, versions: seq<Contents>, later: seq<Contents>, since: nat, least: nat, p: Identity,
                     handshake: InitiatorHandshake, reason: Reason)
    requires versions <= later && least <= since && HandshakeDropped(d, versions, since, p, handshake, reason)
    ensures HandshakeDropped(d, later, least, p, handshake, reason)
  {
    hide SlotTaken, NoLegacyShown, LegacyShown, ConflictShown, RecordedWithin, Answerable, RefusedFor, Transient, HandleFailed;
    var handle := d.handleOf(p);
    LegacyLater(versions, later, since, least, d.our, handle);
    if HandleFailed(versions, since, handle, NoSession) {
      HandleFailedLater(versions, later, since, least, handle, NoSession);
    }
    match reason
    case HasSession(conflict) =>
      SlotTakenLater(versions, later, since, least, handle);
      ConflictLater(versions, later, since, least, d.our, handle, conflict);
    case Recorded =>
      RecordedLater(versions, later, since, least, handle, p, handshake);
      AnswerableLater(versions, later, since, least, handshake);
    case Refused(e, legacy) => RefusedForLater(d, versions, later, since, least, p, handshake, e);
    case _ =>
  }

  lemma DeservedLater(device: Device, digest: MessageId -> Key32, reading: Reading, versions: seq<Contents>, later: seq<Contents>,
                      since: nat, least: nat, minute: Minute, e: W.Envelope, d: Decision)
    requires versions <= later && least <= since
    requires Deserved(device, digest, reading, versions, since, minute, e, d)
    ensures Deserved(device, digest, reading, later, least, minute, e, d)
  {
    hide Consistent, Held, Hopeless, HopelessCause, ReceivedFor, HandshakeDropped;
    var p := reading.identity(e.sender);
    var handle := device.handleOf(p);
    if d.fate.Discard? && !d.reason.Unpinned? {
      match d.reason
      case HeldHere(received) =>
        if Consistent(later, handle, p) {
          ConsistentBefore(versions, later, handle, p);
          HeldLater(versions, later, p, reading.wire(e.body));
        }
        ReceivedForLater(digest, versions, later, since, least, handle, reading.wire(e.body), minute, received);
      case Failed(error) => HopelessLater(device, versions, later, since, least, handle, reading.wire(e.body), error);
      case _ => DroppedLater(device, versions, later, since, least, p, reading.handshake(e.body), d.reason);
    }
  }

  /** A handshake that was recorded is in the store it was recorded in. */
  lemma RecordingStays(d: Device, before: seq<Contents>, after: seq<Contents>, since: nat, s: Step, p: Identity,
                       handshake: InitiatorHandshake)
    requires Took(d, 0, before, after, s) && s.event.fault.NoFault? && Fires(d, 0, after[s.at], s.event.tx) && since <= |before|
    requires s.event.tx == RecordHandshake(p, handshake)
             || (s.event.tx.Retire? && s.event.tx.base.peer == p && s.event.tx.handshake == handshake)
    ensures RecordedWithin(after, since, d.handleOf(p), p, handshake)
  {
    hide Formed, Reads;
    assert Within(after, since, s.at + 1);
    assert Lookup(after[s.at + 1], ProvisionalKey(d.handleOf(p))) == Some(ProvisionalRecord(p, handshake));
  }

  lemma RecordedNow(versions: seq<Contents>, since: nat, handle: nat, p: Identity, handshake: InitiatorHandshake)
    requires |versions| > 0 && since <= |versions|
    requires Lookup(versions[|versions| - 1], ProvisionalKey(handle)) == Some(ProvisionalRecord(p, handshake))
    ensures RecordedWithin(versions, since, handle, p, handshake)
  {
    assert Within(versions, since, |versions| - 1);
  }

  /** Which errors drop a message, and which leave a handshake for another time. */
  lemma ErrorsByFate(e: MessagingError)
    ensures Hopeless(e) <==>
            match e
            case RatchetFailure(_) => true
            case ExhaustedGenerations => true
            case PrekeyRefused(_) => true
            case ExtraConflict(_, _) => true
            case _ => false
    ensures Transient(e) && !e.ExtraConflict? && !e.SideWriteRefused? ==>
            match e
            case StoreFailure => true
            case KeptNothing => true
            case Conflicting(_) => true
            case UnknownOutcome(_) => true
            case RepeatableOutcomeUnknown => true
            case StillUnresolved(_) => true
            case PrekeysUnavailable => true
            case _ => false
  {
  }

  // ── How a decision is justified ───────────────────────────────────────────

  lemma AnsweredIsWire(versions: seq<Contents>, handle: nat, wire: MessageId, received: Received)
    requires Answered(versions, handle, wire, Ok(received))
    ensures match received case Accepted(m) => m.id == wire case Duplicate(id, _) => id == wire
  {
    hide HandleShowed;
    var q :| HandleShowed(versions, handle, q) && AnsweredFor(versions, q, wire, received);
  }

  lemma NotAnswered(versions: seq<Contents>, handle: nat, wire: MessageId, e: MessagingError)
    ensures Answered(versions, handle, wire, Err(e))
  {
  }

  lemma UnreadAborts(d: Device, digest: MessageId -> Key32, before: seq<Contents>, versions: seq<Contents>, was: map<nat, Unresolved>,
                     handle: nat, p: Identity, minute: Minute, e: MessagingError)
    requires e != NoSession && HandleFailed(versions, |before|, handle, e)
    ensures MessageAborted(d, digest, before, versions, was, handle, p, minute, Failed(e))
    ensures !Hopeless(e)
  {
    LoadErrors(versions, |before|, d.our, handle, e);
    hide HandleFailed;
  }

  lemma UnreceivedMeans(d: Device, digest: MessageId -> Key32, before: seq<Contents>, read: seq<Contents>, mid: seq<Contents>,
                        versions: seq<Contents>, was: map<nat, Unresolved>, now: map<nat, Unresolved>, handle: nat, p: Identity,
                        wire: MessageId, newDh: DhKey, attempt: Option<Step>, receipt: Option<Step>, minute: Minute, e: MessagingError,
                        fate: Fate)
    requires before <= read <= mid <= versions && Remembered(was, now, Err(e))
    requires Performed(d, newDh, read, mid, handle, wire, attempt, receipt)
    requires CommittedFailed(d, mid, |read|, was, handle, wire, newDh, attempt, receipt, e)
    requires fate.Discard? <==> Hopeless(e)
    requires fate.Abort? ==>
               e.StillUnresolved? && handle in now && exists x: MessagingError :: RecoverFailed(d, versions, |mid|,
                   now[handle], handle, x)
    ensures fate.Discard? ==> HopelessCause(d, versions, |before|, handle, wire, e)
    ensures fate.Keep? ==> MessageKept(d, before, versions, was, handle, wire, e)
    ensures fate.Abort? ==> MessageAborted(d, digest, before, versions, was, handle, p, minute, Failed(e))
  {
    hide Performed, CommittedFailed, Hopeless, HopelessCause, RecoverFailed, HandleFailed;
    if fate.Discard? {
      HopelessIsCaused(d, mid, |read|, was, handle, wire, newDh, attempt, receipt, e);
      HopelessLater(d, mid, versions, |read|, |before|, handle, wire, e);
    } else if fate.Keep? {
      PerformedSince(d, newDh, before, read, mid, versions, handle, wire, attempt, receipt);
      CommittedFailedLater(d, mid, versions, |read|, |before|, was, handle, wire, newDh, attempt, receipt, e);
    } else {
      CommittedUnresolved(d, mid, |read|, was, handle, wire, newDh, attempt, receipt, e);
      var x: MessagingError :| RecoverFailed(d, versions, |mid|, now[handle], handle, x);
      RecoverFailedSince(d, versions, |mid|, |before|, was[handle], handle, x);
    }
  }

  lemma CommittedUnresolved(d: Device, versions: seq<Contents>, since: nat, was: map<nat, Unresolved>, handle: nat, wire: MessageId,
                            newDh: DhKey, attempt: Option<Step>, receipt: Option<Step>, e: MessagingError)
    requires e.StillUnresolved? && CommittedFailed(d, versions, since, was, handle, wire, newDh, attempt, receipt, e)
    ensures Unresolvable(was, handle, e)
  {
    hide SlotTaken, NoneRecorded, RecordedWithin, Overtaken, Unanswered, Unanswerable, CandidateRefuses, PrekeysSpent, HandleFailed,
         NoPrekeys, NamesAnother, RecordUnreadable;
    LoadErrors(versions, since, d.our, handle, e);
    UnreadableErrors(versions, since, handle, e);
  }

  lemma ActedMeans(d: Device, digest: MessageId -> Key32, before: seq<Contents>, mid: seq<Contents>, versions: seq<Contents>,
                   was: map<nat, Unresolved>, handle: nat, p: Identity, wire: MessageId, minute: Minute, received: Received,
                   fate: Fate, steps: seq<Step>)
    requires before <= mid <= versions && AllKeepRule(d, handle, p, before, versions, steps)
    requires fate.Discard? ==> ReceivedFor(digest, versions, |mid|, handle, wire, minute, received)
    requires fate.Abort? ==>
               exists x: MessagingError :: ActingFailed(d, digest, versions, |mid|, was, handle, minute, received, steps, x)
    ensures fate.Discard? ==> ReceivedFor(digest, versions, |before|, handle, wire, minute, received)
    ensures fate.Abort? ==> MessageAborted(d, digest, before, versions, was, handle, p, minute, HeldHere(received))
  {
    hide AllKeepRule, ReceivedFor, SettleFailed, SendingFailed, LeftAlready;
    if fate.Discard? {
      ReceivedForLater(digest, versions, versions, |mid|, |before|, handle, wire, minute, received);
    }
    if fate.Abort? {
      var x: MessagingError :| ActingFailed(d, digest, versions, |mid|, was, handle, minute, received, steps, x);
      match received {
        case Accepted(m) =>
          SettleFailedLater(d, versions, versions, |mid|, |before|, was, handle, W.ReceiptId(digest(m.id), 0), m, steps, steps, x);
        case Duplicate(id, _) =>
          AgainFailedSince(d, versions, |mid|, |before|, was, handle, W.ReceiptId(digest(id), 0),
                           W.ReceiptId(digest(id), minute + 1), steps, x);
      }
      assert ActingFailed(d, digest, versions, |before|, was, handle, minute, received, steps, x);
    }
  }

  lemma AgainFailedSince(d: Device, versions: seq<Contents>, since: nat, least: nat, was: map<nat, Unresolved>, handle: nat,
                         first: ClientId, again: ClientId, steps: seq<Step>, e: MessagingError)
    requires least <= since && AgainFailed(d, versions, since, was, handle, first, again, steps, e)
    ensures AgainFailed(d, versions, least, was, handle, first, again, steps, e)
  {
    hide SendingFailed, HandleShowed, Status;
    WithinSince(versions, since, least);
    if SendingFailed(d, versions, since, was, handle, first, steps, e) {
      SendingFailedLater(d, versions, versions, since, least, was, handle, first, steps, steps, e);
    } else {
      SendingFailedLater(d, versions, versions, since, least, was, handle, again, steps, steps, e);
    }
  }

  lemma PerformedSince(d: Device, newDh: DhKey, earlier: seq<Contents>, before: seq<Contents>, after: seq<Contents>, later: seq<Contents>,
                       handle: nat, wire: MessageId, attempt: Option<Step>, receipt: Option<Step>)
    requires earlier <= before && after <= later && Performed(d, newDh, before, after, handle, wire, attempt, receipt)
    ensures Performed(d, newDh, earlier, later, handle, wire, attempt, receipt)
  {
    hide Took, RecordedWithin, Named;
    if attempt.Some? {
      TookLater(d, newDh, earlier, before, after, later, attempt.value);
      RecordedLater(after, later, |before|, |earlier|, handle, attempt.value.event.tx.peer, attempt.value.event.tx.handshake);
    }
    if receipt.Some? {
      TookLater(d, newDh, earlier, before, after, later, receipt.value);
      NamedLater(after, later, |before|, |earlier|, handle, receipt.value.event.tx.base.peer);
    }
  }

  lemma TookLater(d: Device, next: nat, earlier: seq<Contents>, before: seq<Contents>, after: seq<Contents>,
                  later: seq<Contents>, s: Step)
    requires earlier <= before && after <= later && TookWithin(d, next, before, after, s)
    ensures TookWithin(d, next, earlier, later, s)
  {
    hide Formed, After, Reads;
    assert after[..s.at + 2] == later[..s.at + 2];
  }

  lemma CommittedFailedLater(d: Device, versions: seq<Contents>, later: seq<Contents>, since: nat, least: nat, was: map<nat, Unresolved>,
                             handle: nat, wire: MessageId, newDh: DhKey, attempt: Option<Step>, receipt: Option<Step>, e: MessagingError)
    requires versions <= later && least <= since
    requires CommittedFailed(d, versions, since, was, handle, wire, newDh, attempt, receipt, e)
    ensures CommittedFailed(d, later, least, was, handle, wire, newDh, attempt, receipt, e)
  {
    hide HandleFailed, ReceiveFailed, SlotTaken, NoneRecorded, RecordUnreadable, FirstFailed;
    forall x | HandleFailed(versions, since, handle, x)
      ensures HandleFailed(later, least, handle, x)
    {
      HandleFailedLater(versions, later, since, least, handle, x);
    }
    if ReceiveFailed(d, versions, since, was, handle, wire, newDh, receipt, e) {
      ReceiveFailedLater(d, versions, later, since, least, was, handle, wire, newDh, receipt, e);
    }
    if SlotTaken(versions, since, handle) {
      SlotTakenLater(versions, later, since, least, handle);
    }
    RecordLater(versions, later, since, least, handle, e);
    forall q: Identity, h: InitiatorHandshake | FirstFailed(d, versions, since, was, handle, wire, newDh, attempt, receipt, e, q, h)
      ensures FirstFailed(d, later, least, was, handle, wire, newDh, attempt, receipt, e, q, h)
    {
      FirstFailedLater(d, versions, later, since, least, was, handle, wire, newDh, attempt, receipt, e, q, h);
    }
  }

  lemma RecordLater(versions: seq<Contents>, later: seq<Contents>, since: nat, least: nat, handle: nat, e: MessagingError)
    requires versions <= later && least <= since
    ensures NoneRecorded(versions, since, handle) ==> NoneRecorded(later, least, handle)
    ensures RecordUnreadable(versions, since, handle, e) ==> RecordUnreadable(later, least, handle, e)
  {
    hide ProvisionalError;
    if NoneRecorded(versions, since, handle) {
      var k: nat :| Within(versions, since, k) && ProvisionalKey(handle) !in versions[k];
      assert Within(later, least, k) && ProvisionalKey(handle) !in later[k];
    }
    if RecordUnreadable(versions, since, handle, e) {
      var k: nat :| Within(versions, since, k) && ProvisionalError(versions[k], handle) == Some(e);
      assert Within(later, least, k) && ProvisionalError(later[k], handle) == Some(e);
    }
  }

  lemma FirstFailedLater(d: Device, versions: seq<Contents>, later: seq<Contents>, since: nat, least: nat, was: map<nat, Unresolved>,
                         handle: nat, wire: MessageId, newDh: DhKey, attempt: Option<Step>, receipt: Option<Step>, e: MessagingError,
                         q: Identity, h: InitiatorHandshake)
    requires versions <= later && least <= since
    requires FirstFailed(d, versions, since, was, handle, wire, newDh, attempt, receipt, e, q, h)
    ensures FirstFailed(d, later, least, was, handle, wire, newDh, attempt, receipt, e, q, h)
  {
    hide AcceptFailed, RecordedWithin;
    RecordedLater(versions, later, since, least, handle, q, h);
    if d.handleOf(q) == handle {
      AcceptFailedLater(d, versions, later, since, least, was, q, h, wire, newDh, attempt, receipt, e);
    }
  }

  lemma OthersDropped(d: Device, versions: seq<Contents>, since: nat, p: Identity, handshake: InitiatorHandshake)
    requires handshake.MalformedHandshake? || handshake.identity != p
    ensures HandshakeDropped(d, versions, since, p, handshake, NotOwn)
  {
  }

  lemma DroppedReasons(d: Device, versions: seq<Contents>, since: nat, p: Identity, handshake: InitiatorHandshake, reason: Reason)
    ensures HandshakeDropped(d, versions, since, p, handshake, reason) ==>
              reason.NotOwn? || reason.HasSession? || reason.Recorded? || reason.Refused?
  {
  }

  lemma HandleAborts(versions: seq<Contents>, since: nat, our: Identity, handle: nat, k: nat, e: MessagingError)
    requires Within(versions, since, k) && HandleError(versions[k], handle) == Some(e) && e != NoSession
    ensures HandshakeAborted(versions, since, our, handle, e)
  {
    HandleFails(versions, since, handle, k, e);
    hide HandleFailed, SlotTaken, LoadFailed, OutboundFailed, NoLegacyShown;
  }

  lemma LegacyAborts(versions: seq<Contents>, since: nat, least: nat, our: Identity, handle: nat, q: Identity, i: nat, e: MessagingError)
    requires least <= since && !NotASession(e) && LoadFailed(versions, since, our, handle, e)
    requires Within(versions, least, i) && Lookup(versions[i], HandleKey(handle)) == Some(HandleRecord(q))
    ensures HandshakeAborted(versions, least, our, handle, e)
  {
    IsNamed(versions, least, handle, q, i);
    hide HandleFailed, Named, LoadFailed, OutboundFailed, NoLegacyShown;
    LoadFailedLater(versions, versions, since, least, our, handle, e);
  }

  lemma ConflictAborts(seen: seq<Contents>, versions: seq<Contents>, since: nat, least: nat, our: Identity, handle: nat, q: Identity,
                       i: nat, e: MessagingError)
    requires seen <= versions && least <= since <= |seen| && NoLegacyShown(seen, since, our, handle)
    requires Within(versions, least, i) && Lookup(versions[i], HandleKey(handle)) == Some(HandleRecord(q))
    requires OutboundFailed(versions, |seen|, handle, e) || LoadFailed(versions, |seen|, our, handle, e)
    ensures HandshakeAborted(versions, least, our, handle, e)
  {
    IsNamed(versions, least, handle, q, i);
    LegacyLater(seen, versions, since, least, our, handle);
    hide HandleFailed, Named, LoadFailed, OutboundFailed, NoLegacyShown;
    if OutboundFailed(versions, |seen|, handle, e) {
      OutboundFailedLater(versions, versions, |seen|, least, handle, e);
    } else {
      LoadFailedLater(versions, versions, |seen|, least, our, handle, e);
    }
  }

  lemma SessionDrops(d: Device, seen: seq<Contents>, versions: seq<Contents>, since: nat, least: nat, p: Identity,
                     handshake: InitiatorHandshake, q: Identity, i: nat, conflict: bool)
    requires seen <= versions && least <= since <= |seen| && NoLegacyShown(seen, since, d.our, d.handleOf(p))
    requires Within(versions, least, i) && Lookup(versions[i], HandleKey(d.handleOf(p))) == Some(HandleRecord(q))
    requires ConflictShown(versions, |seen|, d.our, d.handleOf(p), conflict)
    ensures HandshakeDropped(d, versions, least, p, handshake, HasSession(conflict))
  {
    IsNamed(versions, least, d.handleOf(p), q, i);
    LegacyLater(seen, versions, since, least, d.our, d.handleOf(p));
    ConflictLater(versions, versions, |seen|, least, d.our, d.handleOf(p), conflict);
    hide Named, ConflictShown, NoLegacyShown;
  }

  lemma Stood(versions: seq<Contents>, since: nat, least: nat, our: Identity, handle: nat, i: nat, legacy: bool)
    requires least <= since
    requires if legacy then LegacyShown(versions, since, our, handle)
             else Within(versions, least, i) && HandleError(versions[i], handle) == Some(NoSession)
    ensures StoodBefore(versions, least, our, handle, legacy)
  {
    LegacyLater(versions, versions, since, least, our, handle);
    if !legacy {
      HandleFails(versions, least, handle, i, NoSession);
    }
    hide LegacyShown, HandleFailed;
  }

  lemma StoodLater(versions: seq<Contents>, later: seq<Contents>, since: nat, least: nat, our: Identity, handle: nat, legacy: bool)
    requires versions <= later && least <= since && StoodBefore(versions, since, our, handle, legacy)
    ensures StoodBefore(later, least, our, handle, legacy)
  {
    hide LegacyShown, HandleFailed;
    LegacyLater(versions, later, since, least, our, handle);
    if !legacy {
      HandleFailedLater(versions, later, since, least, handle, NoSession);
    }
  }

  lemma RecordedDrops(d: Device, versions: seq<Contents>, since: nat, least: nat, p: Identity,
                      handshake: InitiatorHandshake, legacy: bool)
    requires least <= since && RecordedWithin(versions, since, d.handleOf(p), p, handshake) && Answerable(versions, since, handshake)
    requires StoodBefore(versions, least, d.our, d.handleOf(p), legacy)
    ensures HandshakeDropped(d, versions, least, p, handshake, Recorded)
  {
    hide RecordedWithin, Answerable, StoodBefore;
    RecordedLater(versions, versions, since, least, d.handleOf(p), p, handshake);
    AnswerableLater(versions, versions, since, least, handshake);
  }

  lemma EstablishFailedSince(d: Device, versions: seq<Contents>, since: nat, least: nat, was: map<nat, Unresolved>, p: Identity,
                             handshake: InitiatorHandshake, step: Option<Step>, e: MessagingError)
    requires least <= since && EstablishFailed(d, versions, since, was, p, handshake, step, e)
    ensures EstablishFailed(d, versions, least, was, p, handshake, step, e)
  {
    hide NoPrekeys, Unanswered, Answerable, PrekeysHeld, RecordFailed;
    if e == PrekeysUnavailable && NoPrekeys(versions, since) {
      NoPrekeysLater(versions, versions, since, least);
    } else if e.PrekeyRefused? && Unanswered(versions, since, handshake, e.refusal) {
      UnansweredLater(versions, versions, since, least, handshake, e.refusal);
    } else {
      var prekeys: Prekeys :| PrekeysHeld(versions, since, prekeys) && RecordFailed(d, versions, since, was, p, prekeys, step, e);
      AnswerableLater(versions, versions, since, least, handshake);
      PrekeysHeldLater(versions, versions, since, least, prekeys);
      RecordFailedLater(d, versions, since, least, was, p, prekeys, step, e);
    }
  }

  lemma EstablishErrors(d: Device, versions: seq<Contents>, since: nat, was: map<nat, Unresolved>, p: Identity,
                        handshake: InitiatorHandshake, step: Option<Step>, e: MessagingError)
    requires EstablishFailed(d, versions, since, was, p, handshake, step, e)
    ensures !e.ExtraConflict? && !e.SideWriteRefused?
  {
    LoadErrors(versions, since, d.our, d.handleOf(p), e);
    hide NoPrekeys, Unanswered, Answerable, PrekeysHeld, HandleFailed, NamesAnother, SessionStored, ShownNotLegacy, ShownObliged,
         ShownOvertaken, SessionFailed;
  }

  lemma TookIsWithin(d: Device, next: nat, earlier: seq<Contents>, before: seq<Contents>, after: seq<Contents>, s: Step)
    requires earlier <= before && Took(d, next, before, after, s)
    ensures TookWithin(d, next, earlier, after, s)
  {
    hide Formed, After, Reads;
    assert after[..s.at + 2] == after;
  }

  lemma KeptFor(d: Device, before: seq<Contents>, mid: seq<Contents>, versions: seq<Contents>, was: map<nat, Unresolved>, p: Identity,
                handshake: InitiatorHandshake, step: Option<Step>, e: MessagingError)
    requires before <= mid && Transient(e) && EstablishFailed(d, versions, |before|, was, p, handshake, step, e)
    requires step.Some? ==> Took(d, 0, mid, versions, step.value)
    ensures HandshakeKept(d, before, versions, was, p, handshake, e)
  {
    hide EstablishFailed, Transient, Took, TookWithin;
    EstablishErrors(d, versions, |before|, was, p, handshake, step, e);
    ErrorsByFate(e);
    if step.Some? {
      TookIsWithin(d, 0, before, mid, versions, step.value);
    }
  }

  lemma RefusedDrops(d: Device, versions: seq<Contents>, since: nat, was: map<nat, Unresolved>, p: Identity,
                     handshake: InitiatorHandshake,
                     step: Option<Step>, e: MessagingError, legacy: bool)
    requires !Transient(e) && EstablishFailed(d, versions, since, was, p, handshake, step, e)
    requires StoodBefore(versions, since, d.our, d.handleOf(p), legacy)
    ensures HandshakeDropped(d, versions, since, p, handshake, Refused(e, legacy))
  {
    hide Transient, EstablishFailed, StoodBefore, RefusedFor;
    RefusedIsCaused(d, versions, since, was, p, handshake, step, e);
  }

  lemma NoStepsKeepRule(d: Device, handle: nat, p: Identity, versions: seq<Contents>)
    ensures AllKeepRule(d, handle, p, versions, versions, [])
  {
  }
}

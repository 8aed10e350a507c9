/** What the calls of a conversation come to, over the versions of its records. */
module ConversationOutcomes {
  import opened Prelude
  import opened Bytes
  import opened SymbolicKeys
  import opened StoreRecords
  import opened ConditionalWrites
  import opened MessengerModel
  import opened MessengerRuns
  import opened MessengerGuarantees
  import opened Messaging
  import opened MessagingReports
  import opened ChatRuns
  import opened ConversationSteps
  import N = NetworkRules
  import P = PendingLists
  import C = ChatModel
  import W = WireCodec

  /** Every version of the messenger's records and of the chat records beside them. */
  datatype Past = Past(versions: seq<Contents>, chats: seq<C.Chat>)

  predicate Extends(now: Past, was: Past) {
    was.versions <= now.versions && was.chats <= now.chats
  }

  // ── One entry ─────────────────────────────────────────────────────────────

  ghost predicate AdvancesAt(past: Past, from: nat, at: nat, number: nat, state: C.EntryState, id: Option<MessageId>) {
    && from <= at && at + 1 < |past.chats| && number in past.chats[at].entries
    && past.chats[at + 1] == C.Apply(past.chats[at], C.Advance(number, state, id))
  }

  /** At some version, not before `from`, the entry was advanced. */
  ghost predicate Advances(past: Past, from: nat, number: nat, state: C.EntryState, id: Option<MessageId>) {
    exists at: nat :: AdvancesAt(past, from, at, number, state, id)
  }

  /** What the records say a send of `app` came to. */
  ghost predicate Told(c: Contents, y: Identity, app: C.AppId, outcome: SendOutcome) {
    match outcome
    case Sent(m) => Status(c, y, W.TextId(app)) == Pending(m)
    case Repeated(status) => Status(c, y, W.TextId(app)) == status
  }

  ghost predicate ToldAt(past: Past, from: nat, handle: nat, y: Identity, app: C.AppId, outcome: SendOutcome, k: nat) {
    && from <= k + 1 && k < |past.versions|
    && (Regular(past.versions, past.chats, handle, y) ==> Told(past.versions[k], y, app, outcome))
  }

  ghost predicate SendsAs(past: Past, from: nat, handle: nat, y: Identity, number: nat, e: C.Entry, outcome: SendOutcome) {
    && (exists k: nat :: ToldAt(past, from, handle, y, e.app, outcome, k))
    && CameTo(outcome).Some?
    && Advances(past, from, number, CameTo(outcome).value.0, Some(CameTo(outcome).value.1))
  }

  /** The text of the queued entry was sent, and the entry advanced to what that
      came to. */
  ghost predicate Sends(past: Past, from: nat, handle: nat, y: Identity, number: nat, e: C.Entry) {
    exists outcome: SendOutcome :: SendsAs(past, from, handle, y, number, e, outcome)
  }

  ghost predicate ComparedAt(past: Past, from: nat, y: Identity, number: nat, e: C.Entry, k: nat) {
    && from <= k + 1 && k < |past.versions|
    && (e.id.Some? && Status(past.versions[k], y, W.TextId(e.app)) == Acknowledged(e.id.value) ==>
          Advances(past, from, number, C.EntryState.Delivered, None))
    && (e.id.Some? && Status(past.versions[k], y, W.TextId(e.app)) == Abandoned(e.id.value) ==>
          Advances(past, from, number, C.EntryState.NotDelivered, None))
  }

  /** The entry in flight was advanced to whatever the outbox, the relay or the
      send record says. */
  ghost predicate Compared(past: Past, from: nat, y: Identity, number: nat, e: C.Entry, pending: set<MessageId>,
                           transmitted: set<MessageId>)
  {
    if e.id.Some? && e.id.value in pending then
      e.state.Pending? && e.id.value in transmitted ==> Advances(past, from, number, C.EntryState.Transmitted, None)
    else
      exists k: nat :: ComparedAt(past, from, y, number, e, k)
  }

  /** What a refresh knows: whether the session can send, what is in the outbox,
      and what the relay took. */
  datatype Known = Known(canSend: bool, pending: set<MessageId>, transmitted: set<MessageId>)

  ghost predicate Handled(past: Past, from: nat, handle: nat, y: Identity, number: nat, e: C.Entry, known: Known) {
    && (e.outgoing && e.state.Queued? && known.canSend ==> Sends(past, from, handle, y, number, e))
    && (e.outgoing && InFlight(e) ==> Compared(past, from, y, number, e, known.pending, known.transmitted))
  }

  ghost predicate EntryAt(past: Past, from: nat, j: nat, number: nat, e: C.Entry) {
    from <= j < |past.chats| && number in past.chats[j].entries && past.chats[j].entries[number] == e
  }

  /** The entry as it was read was handled. */
  ghost predicate EntryHandled(past: Past, from: nat, handle: nat, y: Identity, number: nat, known: Known) {
    exists j: nat, e: C.Entry :: EntryAt(past, from, j, number, e) && Handled(past, from, handle, y, number, e, known)
  }

  ghost predicate AllHandledAt(past: Past, from: nat, handle: nat, y: Identity, known: Known, j: nat) {
    && from <= j < |past.chats|
    && forall n :: 1 <= n <= past.chats[j].last ==> EntryHandled(past, from, handle, y, n, known)
  }

  /** Every entry there was at some version was handled. */
  ghost predicate AllHandled(past: Past, from: nat, handle: nat, y: Identity, known: Known) {
    exists j: nat :: AllHandledAt(past, from, handle, y, known, j)
  }

  // ── The inbox ─────────────────────────────────────────────────────────────

  ghost predicate MarkedAt(past: Past, handle: nat, id: MessageId, k: nat) {
    k < |past.versions| && exists p: Identity ::
      HandleShowed(past.versions, handle, p) && SeenKey(p, id) in past.versions[k] && InboxKey(p, id) !in past.versions[k]
  }

  ghost predicate TakenAt(past: Past, from: nat, handle: nat, m: IncomingMessage, at: nat, k: nat) {
    && m.plaintext.Text? && from <= at && at + 1 < |past.chats|
    && past.chats[at + 1] == C.Apply(past.chats[at], C.RecordIncoming(m.id, m.plaintext.body))
    && at < k && MarkedAt(past, handle, m.id, k)
  }

  /** The text was recorded, and afterwards marked read. */
  ghost predicate Taken(past: Past, from: nat, handle: nat, m: IncomingMessage) {
    exists at: nat, k: nat :: TakenAt(past, from, handle, m, at, k)
  }

  ghost predicate RowTaken(past: Past, from: nat, handle: nat, owner: Identity, id: MessageId) {
    exists m: IncomingMessage :: P.ShowsInbox(past.versions, owner, id, m) && (m.plaintext.Text? ==> Taken(past, from, handle, m))
  }

  ghost predicate InboxTakenAt(past: Past, from: nat, handle: nat, owner: Identity, listed: nat) {
    && from <= listed + 1 && listed < |past.versions| && HandleShowed(past.versions, handle, owner)
    && forall id :: id in P.InboxIds(past.versions[listed].Keys, owner) ==> RowTaken(past, from, handle, owner, id)
  }

  /** Every text in the inbox at some version was recorded and marked read. */
  ghost predicate InboxTaken(past: Past, from: nat, handle: nat) {
    exists owner: Identity, listed: nat :: InboxTakenAt(past, from, handle, owner, listed)
  }

  // ── A refresh ─────────────────────────────────────────────────────────────

  ghost predicate OutboxReadAt(past: Past, from: nat, handle: nat, pending: set<MessageId>, owner: Identity, listed: nat,
                               ms: seq<OutgoingMessage>)
  {
    && from <= listed + 1 && listed < |past.versions| && HandleShowed(past.versions, handle, owner)
    && P.GatheredOutgoing(past.versions, owner, P.OutboxIds(past.versions[listed].Keys, owner), ms)
    && pending == set m | m in ms :: m.id
  }

  /** `pending` is what the outbox listed. */
  ghost predicate OutboxRead(past: Past, from: nat, handle: nat, pending: set<MessageId>) {
    exists owner: Identity, listed: nat, ms: seq<OutgoingMessage> :: OutboxReadAt(past, from, handle, pending, owner, listed, ms)
  }

  ghost predicate NoSessionAt(past: Past, from: nat, handle: nat, k: nat) {
    from <= k + 1 && k < |past.versions| && HandleKey(handle) !in past.versions[k]
  }

  /** There was no session with the peer. */
  ghost predicate SessionAbsent(past: Past, from: nat, handle: nat) {
    exists k: nat :: NoSessionAt(past, from, handle, k)
  }

  ghost predicate RefreshedOn(past: Past, from: nat, our: Identity, handle: nat, y: Identity, known: Known) {
    && AllHandled(past, from, handle, y, known)
    && (|| (SessionAbsent(past, from, handle) && !known.canSend && known.pending == {})
        || (&& InboxTaken(past, from, handle) && OutboxRead(past, from, handle, known.pending)
            && (if known.canSend then N.NoLegacyShown(past.versions, from, our, handle)
                else N.LegacyShown(past.versions, from, our, handle))))
  }

  /** The history was brought up to date. */
  ghost predicate Refreshed(past: Past, from: nat, our: Identity, handle: nat, y: Identity, transmitted: set<MessageId>) {
    exists known: Known :: known.transmitted == transmitted && RefreshedOn(past, from, our, handle, y, known)
  }

  // ── The calls of the application ──────────────────────────────────────────

  ghost predicate QueuedAt(past: Past, from: nat, app: C.AppId, body: Bytes, at: nat, sentRaw: bool) {
    && from <= at && at + 1 < |past.chats|
    && past.chats[at + 1] == C.Apply(past.chats[at], C.Queue(app, body, sentRaw)) && app in past.chats[at + 1].outgoing
  }

  ghost predicate QueuedAs(past: Past, from: nat, app: C.AppId, body: Bytes, number: nat) {
    exists at: nat, sentRaw: bool :: QueuedAt(past, from, app, body, at, sentRaw) && past.chats[at + 1].outgoing[app] == number
  }

  /** The history has the text under its application id, and `e` is its entry as
      read once the history was brought up to date. */
  ghost predicate ChatSent(past: Past, from: nat, our: Identity, handle: nat, y: Identity, app: C.AppId, body: Bytes, e: C.Entry,
                           transmitted: set<MessageId>)
  {
    && Refreshed(past, from, our, handle, y, transmitted)
    && exists number: nat, j: nat :: QueuedAs(past, from, app, body, number) && EntryAt(past, from, j, number, e)
  }

  ghost predicate ClaimedAt(past: Past, from: nat, app: C.AppId, at: nat) {
    && from <= at && at + 1 < |past.chats|
    && past.chats[at + 1] == C.Apply(past.chats[at], C.Claim(app)) && app in past.chats[at + 1].claims
  }

  /** The text went out under an id claimed for it, and `outcome` is what it came to. */
  ghost predicate TextSent(past: Past, from: nat, handle: nat, y: Identity, app: C.AppId, outcome: SendOutcome) {
    && (exists at: nat :: ClaimedAt(past, from, app, at))
    && (exists k: nat :: ToldAt(past, from, handle, y, app, outcome, k))
  }

  /** The entry as it was read, if in flight, was given up. */
  ghost predicate EntryGivenUp(past: Past, from: nat, number: nat) {
    exists j: nat, e: C.Entry ::
      && EntryAt(past, from, j, number, e)
      && (e.outgoing && InFlight(e) ==> Advances(past, from, number, C.EntryState.NotDelivered, None))
  }

  ghost predicate AllGivenUpAt(past: Past, from: nat, j: nat) {
    from <= j < |past.chats| && forall n :: 1 <= n <= past.chats[j].last ==> EntryGivenUp(past, from, n)
  }

  ghost predicate AllGivenUp(past: Past, from: nat) {
    exists j: nat :: AllGivenUpAt(past, from, j)
  }

  ghost predicate GoneAt(past: Past, handle: nat, id: MessageId, k: nat) {
    k < |past.versions| && exists p: Identity :: HandleShowed(past.versions, handle, p) && OutboxKey(p, id) !in past.versions[k]
  }

  ghost predicate Gone(past: Past, handle: nat, id: MessageId) {
    exists k: nat :: GoneAt(past, handle, id, k)
  }

  ghost predicate EmptiedOf(past: Past, from: nat, handle: nat, pending: set<MessageId>) {
    OutboxRead(past, from, handle, pending) && forall id :: id in pending ==> Gone(past, handle, id)
  }

  /** Every message the outbox listed was taken out of it. */
  ghost predicate OutboxEmptied(past: Past, from: nat, handle: nat) {
    exists pending: set<MessageId> :: EmptiedOf(past, from, handle, pending)
  }

  ghost predicate RemovedAt(past: Past, from: nat, handle: nat, k: nat, p: Identity) {
    && from <= k + 1 && k < |past.versions| && HandleShowed(past.versions, handle, p)
    && {SessionKey(p), HandleKey(handle), HandshakeKey(p)} !! past.versions[k].Keys
  }

  ghost predicate SessionRemoved(past: Past, from: nat, handle: nat) {
    exists k: nat, p: Identity :: RemovedAt(past, from, handle, k, p)
  }

  ghost predicate ConfirmedAt(past: Past, from: nat, handle: nat, k: nat, s: SessionState) {
    && from <= k + 1 && k < |past.versions| && Established(s) && HandleShowed(past.versions, handle, s.peer)
    && Lookup(past.versions[k], SessionKey(s.peer)) == Some(SessionRecord(s))
  }

  /** The peer had authenticated a message on the session. */
  ghost predicate SessionConfirmed(past: Past, from: nat, handle: nat) {
    exists k: nat, s: SessionState :: ConfirmedAt(past, from, handle, k, s)
  }

  /** The conflict is over: there was no session, or the peer accepted it, or every
      text in flight was given up, the outbox emptied and the session removed. */
  ghost predicate Resolved(past: Past, from: nat, handle: nat) {
    || SessionAbsent(past, from, handle) || SessionConfirmed(past, from, handle)
    || (AllGivenUp(past, from) && OutboxEmptied(past, from, handle) && SessionRemoved(past, from, handle))
  }

  // ── What was so stays so, and was so from any earlier version on ─────────

  lemma AdvancesLater(was: Past, now: Past, from: nat, least: nat, number: nat, state: C.EntryState, id: Option<MessageId>)
    requires Extends(now, was) && least <= from
    ensures Advances(was, from, number, state, id) ==> Advances(now, least, number, state, id)
  {
    hide C.Apply;
    if Advances(was, from, number, state, id) {
      var at: nat :| AdvancesAt(was, from, at, number, state, id);
      assert AdvancesAt(now, least, at, number, state, id);
    }
  }

  lemma ToldLater(was: Past, now: Past, from: nat, least: nat, handle: nat, y: Identity, app: C.AppId, outcome: SendOutcome, k: nat)
    requires Extends(now, was) && least <= from && ToldAt(was, from, handle, y, app, outcome, k)
    ensures ToldAt(now, least, handle, y, app, outcome, k)
  {
    hide Told, Regular;
    if Regular(now.versions, now.chats, handle, y) {
      RegularBefore(was.versions, now.versions, was.chats, now.chats, handle, y);
    }
  }

  lemma SendsLater(was: Past, now: Past, from: nat, least: nat, handle: nat, y: Identity, number: nat, e: C.Entry)
    requires Extends(now, was) && least <= from && Sends(was, from, handle, y, number, e)
    ensures Sends(now, least, handle, y, number, e)
  {
    hide Advances, Told, Regular;
    var outcome: SendOutcome :| SendsAs(was, from, handle, y, number, e, outcome);
    var k: nat :| ToldAt(was, from, handle, y, e.app, outcome, k);
    ToldLater(was, now, from, least, handle, y, e.app, outcome, k);
    AdvancesLater(was, now, from, least, number, CameTo(outcome).value.0, Some(CameTo(outcome).value.1));
    assert SendsAs(now, least, handle, y, number, e, outcome);
  }

  lemma ComparedLater(was: Past, now: Past, from: nat, least: nat, y: Identity, number: nat, e: C.Entry, known: Known)
    requires Extends(now, was) && least <= from && Compared(was, from, y, number, e, known.pending, known.transmitted)
    ensures Compared(now, least, y, number, e, known.pending, known.transmitted)
  {
    hide Advances, Status;
    forall state
      ensures Advances(was, from, number, state, None) ==> Advances(now, least, number, state, None)
    {
      AdvancesLater(was, now, from, least, number, state, None);
    }
    if !(e.id.Some? && e.id.value in known.pending) {
      var k: nat :| ComparedAt(was, from, y, number, e, k);
      assert ComparedAt(now, least, y, number, e, k);
    }
  }

  lemma HandledLater(was: Past, now: Past, from: nat, least: nat, handle: nat, y: Identity, number: nat, e: C.Entry, known: Known)
    requires Extends(now, was) && least <= from && Handled(was, from, handle, y, number, e, known)
    ensures Handled(now, least, handle, y, number, e, known)
  {
    hide Sends, Compared;
    if e.outgoing && e.state.Queued? && known.canSend {
      SendsLater(was, now, from, least, handle, y, number, e);
    }
    if e.outgoing && InFlight(e) {
      ComparedLater(was, now, from, least, y, number, e, known);
    }
  }

  lemma EntryHandledLater(was: Past, now: Past, from: nat, least: nat, handle: nat, y: Identity, number: nat, known: Known)
    requires Extends(now, was) && least <= from && EntryHandled(was, from, handle, y, number, known)
    ensures EntryHandled(now, least, handle, y, number, known)
  {
    hide Handled;
    var j: nat, e: C.Entry :| EntryAt(was, from, j, number, e) && Handled(was, from, handle, y, number, e, known);
    HandledLater(was, now, from, least, handle, y, number, e, known);
    assert EntryAt(now, least, j, number, e);
  }

  lemma AllHandledLater(was: Past, now: Past, from: nat, least: nat, handle: nat, y: Identity, known: Known)
    requires Extends(now, was) && least <= from && AllHandled(was, from, handle, y, known)
    ensures AllHandled(now, least, handle, y, known)
  {
    hide EntryHandled;
    var j: nat :| AllHandledAt(was, from, handle, y, known, j);
    forall n | 1 <= n <= now.chats[j].last
      ensures EntryHandled(now, least, handle, y, n, known)
    {
      EntryHandledLater(was, now, from, least, handle, y, n, known);
    }
    assert AllHandledAt(now, least, handle, y, known, j);
  }

  lemma TakenLater(was: Past, now: Past, from: nat, least: nat, handle: nat, m: IncomingMessage)
    requires Extends(now, was) && least <= from && Taken(was, from, handle, m)
    ensures Taken(now, least, handle, m)
  {
    hide HandleShowed, C.Apply;
    var at: nat, k: nat :| TakenAt(was, from, handle, m, at, k);
    var p: Identity :| HandleShowed(was.versions, handle, p) && SeenKey(p, m.id) in was.versions[k]
                       && InboxKey(p, m.id) !in was.versions[k];
    P.HandleShownLater(was.versions, now.versions, handle, p);
    assert TakenAt(now, least, handle, m, at, k);
  }

  lemma RowTakenLater(was: Past, now: Past, from: nat, least: nat, handle: nat, owner: Identity, id: MessageId)
    requires Extends(now, was) && least <= from && RowTaken(was, from, handle, owner, id)
    ensures RowTaken(now, least, handle, owner, id)
  {
    hide Taken, P.ShowsInbox;
    var m: IncomingMessage :| P.ShowsInbox(was.versions, owner, id, m) && (m.plaintext.Text? ==> Taken(was, from, handle, m));
    P.ShowsInboxLater(was.versions, now.versions, owner, id, m);
    if m.plaintext.Text? {
      TakenLater(was, now, from, least, handle, m);
    }
  }

  lemma InboxTakenLater(was: Past, now: Past, from: nat, least: nat, handle: nat)
    requires Extends(now, was) && least <= from && InboxTaken(was, from, handle)
    ensures InboxTaken(now, least, handle)
  {
    hide RowTaken, HandleShowed;
    var owner: Identity, listed: nat :| InboxTakenAt(was, from, handle, owner, listed);
    P.HandleShownLater(was.versions, now.versions, handle, owner);
    forall id | id in P.InboxIds(now.versions[listed].Keys, owner)
      ensures RowTaken(now, least, handle, owner, id)
    {
      RowTakenLater(was, now, from, least, handle, owner, id);
    }
    assert InboxTakenAt(now, least, handle, owner, listed);
  }

  lemma OutboxReadLater(was: Past, now: Past, from: nat, least: nat, handle: nat, pending: set<MessageId>)
    requires Extends(now, was) && least <= from && OutboxRead(was, from, handle, pending)
    ensures OutboxRead(now, least, handle, pending)
  {
    hide P.ReadOutgoing, P.OutboxListed, HandleShowed, P.ByGeneration;
    var owner: Identity, listed: nat, ms: seq<OutgoingMessage> :| OutboxReadAt(was, from, handle, pending, owner, listed, ms);
    P.HandleShownLater(was.versions, now.versions, handle, owner);
    P.GatheredOutgoingLater(was.versions, now.versions, owner, P.OutboxIds(was.versions[listed].Keys, owner), ms);
    assert OutboxReadAt(now, least, handle, pending, owner, listed, ms);
  }

  lemma SessionSeenLater(was: Past, now: Past, from: nat, least: nat, handle: nat)
    requires Extends(now, was) && least <= from
    ensures SessionAbsent(was, from, handle) ==> SessionAbsent(now, least, handle)
    ensures SessionConfirmed(was, from, handle) ==> SessionConfirmed(now, least, handle)
  {
    hide HandleShowed, Established;
    if SessionAbsent(was, from, handle) {
      var k: nat :| NoSessionAt(was, from, handle, k);
      assert NoSessionAt(now, least, handle, k);
    }
    if SessionConfirmed(was, from, handle) {
      var k: nat, s: SessionState :| ConfirmedAt(was, from, handle, k, s);
      P.HandleShownLater(was.versions, now.versions, handle, s.peer);
      assert ConfirmedAt(now, least, handle, k, s);
    }
  }

  lemma RefreshedLater(was: Past, now: Past, from: nat, least: nat, our: Identity, handle: nat, y: Identity, transmitted: set<MessageId>)
    requires Extends(now, was) && least <= from && Refreshed(was, from, our, handle, y, transmitted)
    ensures Refreshed(now, least, our, handle, y, transmitted)
  {
    hide AllHandled, InboxTaken, OutboxRead, SessionAbsent, N.LegacyShown, N.NoLegacyShown;
    var known: Known :| known.transmitted == transmitted && RefreshedOn(was, from, our, handle, y, known);
    AllHandledLater(was, now, from, least, handle, y, known);
    N.LegacyLater(was.versions, now.versions, from, least, our, handle);
    SessionSeenLater(was, now, from, least, handle);
    if InboxTaken(was, from, handle) && OutboxRead(was, from, handle, known.pending) {
      InboxTakenLater(was, now, from, least, handle);
      OutboxReadLater(was, now, from, least, handle, known.pending);
    }
    assert RefreshedOn(now, least, our, handle, y, known);
  }

  lemma EntryGivenUpLater(was: Past, now: Past, from: nat, least: nat, number: nat)
    requires Extends(now, was) && least <= from && EntryGivenUp(was, from, number)
    ensures EntryGivenUp(now, least, number)
  {
    hide Advances;
    var j: nat, e: C.Entry :|
      && EntryAt(was, from, j, number, e)
      && (e.outgoing && InFlight(e) ==> Advances(was, from, number, C.EntryState.NotDelivered, None));
    AdvancesLater(was, now, from, least, number, C.EntryState.NotDelivered, None);
    assert EntryAt(now, least, j, number, e);
  }

  lemma AllGivenUpLater(was: Past, now: Past, from: nat, least: nat)
    requires Extends(now, was) && least <= from && AllGivenUp(was, from)
    ensures AllGivenUp(now, least)
  {
    hide EntryGivenUp;
    var j: nat :| AllGivenUpAt(was, from, j);
    forall n | 1 <= n <= now.chats[j].last
      ensures EntryGivenUp(now, least, n)
    {
      EntryGivenUpLater(was, now, from, least, n);
    }
    assert AllGivenUpAt(now, least, j);
  }

  lemma GoneLater(was: Past, now: Past, handle: nat, id: MessageId)
    requires Extends(now, was) && Gone(was, handle, id)
    ensures Gone(now, handle, id)
  {
    hide HandleShowed;
    var k: nat :| GoneAt(was, handle, id, k);
    var p: Identity :| HandleShowed(was.versions, handle, p) && OutboxKey(p, id) !in was.versions[k];
    P.HandleShownLater(was.versions, now.versions, handle, p);
    assert GoneAt(now, handle, id, k);
  }

  lemma OutboxEmptiedLater(was: Past, now: Past, from: nat, least: nat, handle: nat)
    requires Extends(now, was) && least <= from && OutboxEmptied(was, from, handle)
    ensures OutboxEmptied(now, least, handle)
  {
    hide OutboxRead, Gone;
    var pending: set<MessageId> :| EmptiedOf(was, from, handle, pending);
    OutboxReadLater(was, now, from, least, handle, pending);
    forall id | id in pending
      ensures Gone(now, handle, id)
    {
      GoneLater(was, now, handle, id);
    }
    assert EmptiedOf(now, least, handle, pending);
  }
}

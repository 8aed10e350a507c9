/** What a call's outcome means in a run, in which other connections keep writing:
    the history the application sees when the run ends. */
module ConversationResults {
  import opened Prelude
  import opened Bytes
  import opened SymbolicKeys
  import opened StoreRecords
  import opened ConditionalWrites
  import opened MessengerModel
  import opened MessengerInvariant
  import opened MessengerRuns
  import opened MessengerGuarantees
  import opened Messaging
  import opened MessagingReports
  import opened ChatRuns
  import opened ConversationSteps
  import opened ConversationOutcomes
  import N = NetworkRules
  import P = PendingLists
  import C = ChatModel
  import W = WireCodec

  function PastOf(cr: ChatRun): Past {
    Past(cr.run.versions, cr.chats)
  }

  function Last(cr: ChatRun): C.Chat
    requires |cr.chats| > 0
  {
    cr.chats[|cr.chats| - 1]
  }

  /** An entry as it was at version `j` and as it is at version `i`. */
  lemma EntryGrows(d: Device, y: Identity, cr: ChatRun, n: nat, j: nat, i: nat)
    requires IsChatRun(d, y, cr) && j <= i < |cr.chats| && n in cr.chats[j].entries
    ensures n in cr.chats[i].entries && C.Grows(cr.chats[j].entries[n], cr.chats[i].entries[n])
  {
    hide IsChatRun, C.Grows;
    HistoryOnlyGrows(d, y, cr, j, i);
  }

  /** An entry that was advanced is no longer queued, and one given up is in
      flight no longer. */
  lemma AdvancedForGood(d: Device, y: Identity, cr: ChatRun, from: nat, n: nat, state: C.EntryState, id: Option<MessageId>)
    requires IsChatRun(d, y, cr) && |cr.chats| > 0 && Advances(PastOf(cr), from, n, state, id)
    requires C.Forward(C.EntryState.Queued, state)
    ensures n in Last(cr).entries && !Last(cr).entries[n].state.Queued?
    ensures state.Delivered? || state.NotDelivered? ==> !InFlight(Last(cr).entries[n])
  {
    hide IsChatRun;
    var at: nat :| AdvancesAt(PastOf(cr), from, at, n, state, id);
    EntryGrows(d, y, cr, n, at + 1, |cr.chats| - 1);
  }

  /** Once a refresh has succeeded, on a session that can send, no text that was in
      the history before is still waiting to be sent. */
  lemma NothingLeftQueued(d: Device, y: Identity, cr: ChatRun, from: nat, transmitted: set<MessageId>, n: nat)
    requires IsChatRun(d, y, cr) && Refreshed(PastOf(cr), from, d.our, d.handleOf(y), y, transmitted)
    requires from < |cr.chats| && n in cr.chats[from].entries && cr.chats[from].entries[n].outgoing
    ensures n in Last(cr).entries
    ensures || SessionAbsent(PastOf(cr), from, d.handleOf(y)) || N.LegacyShown(cr.run.versions, from, d.our, d.handleOf(y))
            || !Last(cr).entries[n].state.Queued?
  {
    hide IsChatRun, InboxTaken, OutboxRead, SessionAbsent, N.LegacyShown, N.NoLegacyShown, EntryHandled;
    EntryGrows(d, y, cr, n, from, |cr.chats| - 1);
    var handle := d.handleOf(y);
    var known: Known :| known.transmitted == transmitted && RefreshedOn(PastOf(cr), from, d.our, handle, y, known);
    if known.canSend {
      var j: nat :| AllHandledAt(PastOf(cr), from, handle, y, known, j);
      Numbered(d, y, cr, from, n, j);
      SentOrNotQueued(d, y, cr, from, n, known);
    }
  }

  lemma Numbered(d: Device, y: Identity, cr: ChatRun, from: nat, n: nat, j: nat)
    requires IsChatRun(d, y, cr) && from <= j < |cr.chats| && n in cr.chats[from].entries
    ensures 1 <= n <= cr.chats[j].last
  {
    hide IsChatRun, C.Grows;
    HistoryIsConsistent(d, y, cr, from);
    HistoryOnlyGrows(d, y, cr, from, j);
  }

  lemma SentOrNotQueued(d: Device, y: Identity, cr: ChatRun, from: nat, n: nat, known: Known)
    requires IsChatRun(d, y, cr) && from < |cr.chats| && n in cr.chats[from].entries && cr.chats[from].entries[n].outgoing
    requires known.canSend && EntryHandled(PastOf(cr), from, d.handleOf(y), y, n, known)
    ensures n in Last(cr).entries && !Last(cr).entries[n].state.Queued?
  {
    hide IsChatRun, Compared, Advances, ToldAt;
    var handle := d.handleOf(y);
    var j: nat, e: C.Entry :| EntryAt(PastOf(cr), from, j, n, e) && Handled(PastOf(cr), from, handle, y, n, e, known);
    EntryGrows(d, y, cr, n, from, j);
    EntryGrows(d, y, cr, n, j, |cr.chats| - 1);
    if e.state.Queued? {
      var outcome: SendOutcome :| SendsAs(PastOf(cr), from, handle, y, n, e, outcome);
      AdvancedForGood(d, y, cr, from, n, CameTo(outcome).value.0, Some(CameTo(outcome).value.1));
    }
  }

  // ── What left the outbox is shown ─────────────────────────────────────────

  lemma {:induction false} IdsBound(ms: seq<OutgoingMessage>)
    ensures |set m | m in ms :: m.id| <= |ms|
  {
    if ms != [] {
      var (init, last) := (ms[..|ms| - 1], ms[|ms| - 1]);
      IdsBound(init);
      assert (set m | m in ms :: m.id) == (set m | m in init :: m.id) + {last.id};
    }
  }

  lemma SameSize<T>(s: set<T>, t: set<T>)
    requires s <= t && |t| <= |s|
    ensures s == t
  {
    assert t == s + (t - s);
  }

  /** What a listing of the outbox returns is what it listed. */
  lemma PendingIsListed(versions: seq<Contents>, handle: nat, y: Identity, done: set<MessageId>, ms: seq<OutgoingMessage>)
    requires N.Consistent(versions, handle, y) && P.GatheredOutgoing(versions, y, done, ms)
    ensures (set m | m in ms :: m.id) == done
  {
    hide P.ByGeneration, P.ReadOutgoing, DecodesOutbox;
    var ids := set m | m in ms :: m.id;
    forall id | id in done
      ensures id in ids
    {
      assert P.OutboxListed(versions, y, id, ms);
      var m :| m in ms && P.ShowsOutbox(versions, y, id, m);
      var k: nat :| k < |versions| && Lookup(versions[k], OutboxKey(y, id)) == Some(OutboxRecord(m)) && DecodesOutbox(OutboxRecord(m));
      assert N.ConsistentRows(versions[k], handle, y);
    }
    IdsBound(ms);
    SameSize(done, ids);
  }

  /** The message left the outbox for good. */
  predicate Closed(s: SendStatus, id: MessageId) {
    s == Acknowledged(id) || s == Abandoned(id)
  }

  lemma ClosedStays(d: Device, cr: ChatRun, y: Identity, app: C.AppId, id: MessageId, i: nat, k: nat)
    requires IsRun(d, cr.run) && NoCollision(d, cr.run) && i <= k < |cr.run.versions|
    requires Closed(Status(cr.run.versions[i], y, W.TextId(app)), id)
    ensures Status(cr.run.versions[k], y, W.TextId(app)) == Status(cr.run.versions[i], y, W.TextId(app))
    ensures OutboxKey(y, id) !in cr.run.versions[k]
  {
    StatusOnlyMovesForward(d, cr.run, i, k, y, W.TextId(app));
    RunKeepsInv(d, cr.run, k);
    ClosedIsGone(d, cr.run.next[k], cr.run.versions[k], y, W.TextId(app), id);
  }

  lemma ClosedIsGone(d: Device, next: nat, c: Contents, y: Identity, client: ClientId, id: MessageId)
    requires Inv(d, next, c) && Closed(Status(c, y, client), id)
    ensures OutboxKey(y, id) !in c
  {
  }

  lemma NotPending(d: Device, y: Identity, cr: ChatRun, from: nat, app: C.AppId, id: MessageId, pending: set<MessageId>)
    requires IsChatRun(d, y, cr) && 0 < from <= |cr.run.versions| && OutboxRead(PastOf(cr), from, d.handleOf(y), pending)
    requires forall q :: d.handleOf(q) == d.handleOf(y) ==> q == y
    requires Closed(Status(cr.run.versions[from - 1], y, W.TextId(app)), id)
    ensures id !in pending
  {
    hide Regular, N.Consistent, HandleShowed, P.GatheredOutgoing, ChatStepOf, Closed, IsRun, NoCollision;
    var owner: Identity, listed: nat, ms: seq<OutgoingMessage> :|
      OutboxReadAt(PastOf(cr), from, d.handleOf(y), pending, owner, listed, ms);
    RunsAreRegular(d, y, cr);
    OwnerIsPeer(cr, d.handleOf(y), y, owner);
    RegularIsConsistent(cr, d.handleOf(y), y);
    PendingIsListed(cr.run.versions, d.handleOf(y), y, P.OutboxIds(cr.run.versions[listed].Keys, y), ms);
    ClosedStays(d, cr, y, app, id, from - 1, listed);
  }

  lemma RegularIsConsistent(cr: ChatRun, handle: nat, y: Identity)
    requires Regular(cr.run.versions, cr.chats, handle, y)
    ensures N.Consistent(cr.run.versions, handle, y)
  {
  }

  /** Once a refresh has succeeded, a text whose message had been acknowledged
      before reads delivered, unless it was given up, and one whose message had
      been abandoned reads not delivered. */
  lemma ClosedIsShown(d: Device, y: Identity, cr: ChatRun, from: nat, transmitted: set<MessageId>, n: nat, id: MessageId)
    requires IsChatRun(d, y, cr) && Refreshed(PastOf(cr), from, d.our, d.handleOf(y), y, transmitted)
    requires forall q :: d.handleOf(q) == d.handleOf(y) ==> q == y
    requires 0 < from < |cr.chats| && n in cr.chats[from].entries
    requires var e := cr.chats[from].entries[n];
             e.outgoing && !e.state.Queued? && e.id == Some(id) && Closed(Status(cr.run.versions[from - 1], y, W.TextId(e.app)), id)
    ensures n in Last(cr).entries
    ensures Last(cr).entries[n].state.NotDelivered?
            || (Last(cr).entries[n].state.Delivered?
                && Status(cr.run.versions[from - 1], y, W.TextId(cr.chats[from].entries[n].app)) == Acknowledged(id))
  {
    hide IsChatRun, InboxTaken, OutboxRead, SessionAbsent, N.LegacyShown, N.NoLegacyShown, EntryHandled, Closed;
    var (handle, app, last) := (d.handleOf(y), cr.chats[from].entries[n].app, |cr.chats| - 1);
    var known: Known :| known.transmitted == transmitted && RefreshedOn(PastOf(cr), from, d.our, handle, y, known);
    var j: nat :| AllHandledAt(PastOf(cr), from, handle, y, known, j);
    Numbered(d, y, cr, from, n, j);
    HasVersions(d, y, cr);
    if OutboxRead(PastOf(cr), from, handle, known.pending) {
      NotPending(d, y, cr, from, app, id, known.pending);
    }
    ClosedNotInFlight(d, y, cr, from, n, id, known);
    ShownAsClosed(d, y, cr, from, n, id);
  }

  lemma ClosedNotInFlight(d: Device, y: Identity, cr: ChatRun, from: nat, n: nat, id: MessageId, known: Known)
    requires IsChatRun(d, y, cr) && 0 < from < |cr.chats| && n in cr.chats[from].entries
    requires var e := cr.chats[from].entries[n];
             e.outgoing && !e.state.Queued? && e.id == Some(id) && Closed(Status(cr.run.versions[from - 1], y, W.TextId(e.app)), id)
    requires id !in known.pending && EntryHandled(PastOf(cr), from, d.handleOf(y), y, n, known)
    ensures n in Last(cr).entries && !InFlight(Last(cr).entries[n])
  {
    hide IsRun, NoCollision, ChatStepOf, Sends, Advances, Status;
    var j: nat, e: C.Entry :| EntryAt(PastOf(cr), from, j, n, e) && Handled(PastOf(cr), from, d.handleOf(y), y, n, e, known);
    EntryGrows(d, y, cr, n, from, j);
    EntryGrows(d, y, cr, n, j, |cr.chats| - 1);
    if InFlight(e) {
      var k: nat :| ComparedAt(PastOf(cr), from, y, n, e, k);
      ClosedStays(d, cr, y, e.app, id, from - 1, k);
      AdvancedForGood(d, y, cr, from, n,
                      if Status(cr.run.versions[k], y, W.TextId(e.app)).Acknowledged? then C.EntryState.Delivered
                      else C.EntryState.NotDelivered, None);
    }
  }

  lemma ShownAsClosed(d: Device, y: Identity, cr: ChatRun, from: nat, n: nat, id: MessageId)
    requires IsChatRun(d, y, cr) && 0 < from < |cr.chats| && n in cr.chats[from].entries
    requires var e := cr.chats[from].entries[n];
             e.outgoing && !e.state.Queued? && e.id == Some(id) && Closed(Status(cr.run.versions[from - 1], y, W.TextId(e.app)), id)
    requires n in Last(cr).entries && !InFlight(Last(cr).entries[n])
    ensures Last(cr).entries[n].state.NotDelivered?
            || (Last(cr).entries[n].state.Delivered?
                && Status(cr.run.versions[from - 1], y, W.TextId(cr.chats[from].entries[n].app)) == Acknowledged(id))
  {
    hide IsRun, NoCollision, ChatStepOf, Status;
    var last := |cr.chats| - 1;
    EntryGrows(d, y, cr, n, from, last);
    HistoryIsConsistent(d, y, cr, last);
    ClosedStays(d, cr, y, cr.chats[from].entries[n].app, id, from - 1, last);
    if Last(cr).entries[n].state.Delivered? {
      DeliveredIsAcknowledged(d, y, cr, last, n);
    }
  }

  /** ... and everything its inbox listed, if a text, is in the history, under its
      own message id. */
  lemma InboxIsInHistory(d: Device, y: Identity, cr: ChatRun, from: nat) returns (listed: nat)
    requires IsChatRun(d, y, cr) && InboxTaken(PastOf(cr), from, d.handleOf(y))
    requires forall q :: d.handleOf(q) == d.handleOf(y) ==> q == y
    ensures from <= listed + 1 && listed < |cr.run.versions|
    ensures forall id :: InboxKey(y, id) in cr.run.versions[listed] ==> InHistory(cr, y, id)
  {
    hide IsChatRun, Regular, N.Consistent, HandleShowed, RowTaken;
    var handle := d.handleOf(y);
    var owner: Identity;
    owner, listed :| InboxTakenAt(PastOf(cr), from, handle, owner, listed);
    RunsAreRegular(d, y, cr);
    OwnerIsPeer(cr, handle, y, owner);
    HasVersions(d, y, cr);
    forall id | InboxKey(y, id) in cr.run.versions[listed]
      ensures InHistory(cr, y, id)
    {
      assert id in P.InboxIds(cr.run.versions[listed].Keys, y);
      RowInHistory(d, y, cr, from, id);
    }
  }

  lemma HasVersions(d: Device, y: Identity, cr: ChatRun)
    requires IsChatRun(d, y, cr)
    ensures |cr.chats| == |cr.run.versions| > 0
  {
  }

  lemma OwnerIsPeer(cr: ChatRun, handle: nat, y: Identity, owner: Identity)
    requires Regular(cr.run.versions, cr.chats, handle, y) && HandleShowed(cr.run.versions, handle, owner)
    ensures owner == y
  {
    hide N.Consistent, HandleShowed;
    N.OwnerIs(cr.run.versions, handle, y, owner);
  }

  /** The row shows a message, and if that is a text, the history has it. */
  ghost predicate InHistory(cr: ChatRun, y: Identity, id: MessageId) {
    |cr.chats| > 0 && exists m :: P.ShowsInbox(cr.run.versions, y, id, m) && (m.plaintext.Text? ==> HasReceived(Last(cr), id))
  }

  predicate HasReceived(c: C.Chat, id: MessageId) {
    && id in c.incoming && c.incoming[id] in c.entries
    && c.entries[c.incoming[id]].state.Received? && c.entries[c.incoming[id]].id == Some(id)
  }

  lemma RowInHistory(d: Device, y: Identity, cr: ChatRun, from: nat, id: MessageId)
    requires IsChatRun(d, y, cr) && |cr.chats| > 0 && Regular(cr.run.versions, cr.chats, d.handleOf(y), y)
    requires RowTaken(PastOf(cr), from, d.handleOf(y), y, id)
    ensures InHistory(cr, y, id)
  {
    hide IsChatRun, MarkedAt, C.Consistent, N.ConsistentRows, C.Apply;
    var m: IncomingMessage :| P.ShowsInbox(cr.run.versions, y, id, m)
                              && (m.plaintext.Text? ==> Taken(PastOf(cr), from, d.handleOf(y), m));
    var k: nat :| k < |cr.run.versions| && Lookup(cr.run.versions[k], InboxKey(y, id)) == Some(InboxRecord(m));
    RowNames(cr.run.versions[k], d.handleOf(y), y, id, m);
    if m.plaintext.Text? {
      var at: nat, i: nat :| TakenAt(PastOf(cr), from, d.handleOf(y), m, at, i);
      RecordedForGood(d, y, cr, at + 1, m);
    }
  }

  lemma RowNames(c: Contents, handle: nat, y: Identity, id: MessageId, m: IncomingMessage)
    requires N.ConsistentRows(c, handle, y) && Lookup(c, InboxKey(y, id)) == Some(InboxRecord(m))
    ensures m.id == id
  {
  }

  lemma RecordedForGood(d: Device, y: Identity, cr: ChatRun, i: nat, m: IncomingMessage)
    requires IsChatRun(d, y, cr) && 0 < i < |cr.chats| && m.plaintext.Text?
    requires cr.chats[i] == C.Apply(cr.chats[i - 1], C.RecordIncoming(m.id, m.plaintext.body))
    ensures HasReceived(Last(cr), m.id)
  {
    hide IsChatRun, C.Grows;
    assert m.id in cr.chats[i].incoming;
    HistoryOnlyGrows(d, y, cr, i, |cr.chats| - 1);
    HistoryIsConsistent(d, y, cr, |cr.chats| - 1);
  }

  /** What `chat_send` answers is the application's own text: its entry is under
      the id given, and holds the text of this call, unless an earlier one had
      recorded its own. */
  lemma ChatSendAnswersItsText(d: Device, y: Identity, cr: ChatRun, from: nat, app: C.AppId, body: Bytes, e: C.Entry,
                               transmitted: set<MessageId>)
    returns (at: nat)
    requires IsChatRun(d, y, cr) && ChatSent(PastOf(cr), from, d.our, d.handleOf(y), y, app, body, e, transmitted)
    ensures e.outgoing && e.app == app && from <= at < |cr.chats|
    ensures app !in cr.chats[at].outgoing ==> e.text == body
    ensures app in cr.chats[at].outgoing ==> e.text == EntryOf(cr.chats[at], app).text
  {
    hide IsChatRun, Refreshed, C.Apply;
    var number: nat, j: nat :| QueuedAs(PastOf(cr), from, app, body, number) && EntryAt(PastOf(cr), from, j, number, e);
    var sentRaw: bool;
    at, sentRaw :| QueuedAt(PastOf(cr), from, app, body, at, sentRaw) && cr.chats[at + 1].outgoing[app] == number;
    HistoryIsConsistent(d, y, cr, at);
    HistoryIsConsistent(d, y, cr, at + 1);
    QueuedText(cr.chats[at], app, body, sentRaw);
    var last := |cr.chats| - 1;
    EntryGrows(d, y, cr, number, at + 1, last);
    EntryGrows(d, y, cr, number, j, last);
  }

  function EntryOf(c: C.Chat, app: C.AppId): C.Entry {
    if app in c.outgoing && c.outgoing[app] in c.entries then c.entries[c.outgoing[app]]
    else C.Entry(true, C.EntryState.Queued, app, None, [])
  }

  lemma QueuedText(c: C.Chat, app: C.AppId, body: Bytes, sentRaw: bool)
    requires C.Consistent(c) && app in C.Apply(c, C.Queue(app, body, sentRaw)).outgoing
    ensures var t := C.Apply(c, C.Queue(app, body, sentRaw));
            && EntryOf(t, app).text == (if app in c.outgoing then EntryOf(c, app).text else body)
  {
  }

  /** Once a conflict is resolved, no text that was in flight still is. */
  lemma NothingLeftInFlight(d: Device, y: Identity, cr: ChatRun, from: nat, n: nat)
    requires IsChatRun(d, y, cr) && Resolved(PastOf(cr), from, d.handleOf(y))
    requires from < |cr.chats| && n in cr.chats[from].entries && cr.chats[from].entries[n].outgoing
    requires InFlight(cr.chats[from].entries[n])
    ensures n in Last(cr).entries
    ensures || SessionAbsent(PastOf(cr), from, d.handleOf(y)) || SessionConfirmed(PastOf(cr), from, d.handleOf(y))
            || Last(cr).entries[n].state.NotDelivered? || Last(cr).entries[n].state.Delivered?
  {
    hide IsChatRun, SessionAbsent, SessionConfirmed, OutboxEmptied, SessionRemoved, EntryGivenUp;
    EntryGrows(d, y, cr, n, from, |cr.chats| - 1);
    if AllGivenUp(PastOf(cr), from) {
      var j: nat :| AllGivenUpAt(PastOf(cr), from, j);
      Numbered(d, y, cr, from, n, j);
      GivenUpForGood(d, y, cr, from, n);
    }
  }

  lemma GivenUpForGood(d: Device, y: Identity, cr: ChatRun, from: nat, n: nat)
    requires IsChatRun(d, y, cr) && from < |cr.chats| && n in cr.chats[from].entries && cr.chats[from].entries[n].outgoing
    requires InFlight(cr.chats[from].entries[n]) && EntryGivenUp(PastOf(cr), from, n)
    ensures n in Last(cr).entries && !InFlight(Last(cr).entries[n])
  {
    hide IsChatRun, Advances;
    var j: nat, e: C.Entry :|
      && EntryAt(PastOf(cr), from, j, n, e)
      && (e.outgoing && InFlight(e) ==> Advances(PastOf(cr), from, n, C.EntryState.NotDelivered, None));
    EntryGrows(d, y, cr, n, from, j);
    EntryGrows(d, y, cr, n, j, |cr.chats| - 1);
    if InFlight(e) {
      AdvancedForGood(d, y, cr, from, n, C.EntryState.NotDelivered, None);
    }
  }
}

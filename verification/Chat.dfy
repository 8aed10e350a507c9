/** The history of one conversation (`chat.rs`), and that it agrees with the send
    records of the messenger underneath. */
module ChatModel {
  import opened Prelude
  import opened Bytes
  import opened StoreRecords
  import opened WireCodec

  type AppId = Bytes

  datatype EntryState = Queued | Pending | Transmitted | Delivered | NotDelivered | Received

  datatype Entry = Entry(outgoing: bool, state: EntryState, app: AppId, id: Option<MessageId>, text: Bytes)

  /** The chat records of one contact: the entries by number, the index of own
      texts by application id and of received ones by message id, and the
      application ids taken by `send_text`. */
  datatype Chat = Chat(
    last: nat,
    entries: map<nat, Entry>,
    outgoing: map<AppId, nat>,
    incoming: map<MessageId, nat>,
    claims: set<AppId>)

  const EMPTY := Chat(0, map[], map[], map[], {})

  /** One chat transaction. `sentRaw`: an earlier read showed a text committed
      under the application id without an entry. */
  datatype ChatTx =
    | Idle
    | Queue(app: AppId, text: Bytes, sentRaw: bool)
    | Claim(app: AppId)
    | RecordIncoming(id: MessageId, text: Bytes)
    | Advance(number: nat, state: EntryState, id': Option<MessageId>)

  /** `Queued → Pending → Transmitted → Delivered`, and from the first three to
      `NotDelivered`; steps may skip. */
  predicate Forward(from: EntryState, to: EntryState) {
    match from
    case Queued => to.Pending? || to.Transmitted? || to.Delivered? || to.NotDelivered?
    case Pending => to.Transmitted? || to.Delivered? || to.NotDelivered?
    case Transmitted => to.Delivered? || to.NotDelivered?
    case _ => false
  }

  function Advanced(e: Entry, state: EntryState, id: Option<MessageId>): Entry {
    e.(state := if Forward(e.state, state) then state else e.state,
       id := if e.id.None? then id else e.id)
  }

  function Appended(c: Chat, e: Entry): Chat {
    c.(last := c.last + 1, entries := c.entries[c.last + 1 := e])
  }

  function Apply(c: Chat, tx: ChatTx): Chat {
    match tx
    case Idle => c
    case Queue(app, text, sentRaw) =>
      if app in c.outgoing || sentRaw || app in c.claims then c
      else Appended(c, Entry(true, Queued, app, None, text)).(outgoing := c.outgoing[app := c.last + 1])
    case Claim(app) => if app in c.outgoing then c else c.(claims := c.claims + {app})
    case RecordIncoming(id, text) =>
      if id in c.incoming then c
      else Appended(c, Entry(false, Received, [], Some(id), text)).(incoming := c.incoming[id := c.last + 1])
    case Advance(number, state, id) =>
      if number in c.entries then c.(entries := c.entries[number := Advanced(c.entries[number], state, id)]) else c
  }

  // ── The records by themselves ─────────────────────────────────────────────

  /** Entries are numbered 1 to `last`; each own text has the one entry its
      application id names, each received one the entry its message id names; an
      application id is taken by at most one of the history and `send_text`. */
  ghost predicate Consistent(c: Chat) {
    && (forall n: nat :: n in c.entries <==> 1 <= n <= c.last)
    && (forall app :: app in c.outgoing ==>
          c.outgoing[app] in c.entries && c.entries[c.outgoing[app]].outgoing && c.entries[c.outgoing[app]].app == app)
    && (forall n :: n in c.entries && c.entries[n].outgoing ==>
          c.entries[n].app in c.outgoing && c.outgoing[c.entries[n].app] == n)
    && (forall id :: id in c.incoming ==>
          c.incoming[id] in c.entries && !c.entries[c.incoming[id]].outgoing && c.entries[c.incoming[id]].id == Some(id))
    && (forall n :: n in c.entries && !c.entries[n].outgoing ==>
          c.entries[n].id.Some? && c.entries[n].id.value in c.incoming && c.incoming[c.entries[n].id.value] == n)
    && (forall n :: n in c.entries ==> (c.entries[n].outgoing <==> !c.entries[n].state.Received?))
    && (forall app :: app in c.outgoing ==> app !in c.claims)
  }

  lemma QueueKeeps(c: Chat, app: AppId, text: Bytes)
    requires Consistent(c) && app !in c.outgoing && app !in c.claims
    ensures Consistent(Appended(c, Entry(true, Queued, app, None, text)).(outgoing := c.outgoing[app := c.last + 1]))
  {
    assert c.last + 1 !in c.entries;
  }

  lemma RecordKeeps(c: Chat, id: MessageId, text: Bytes)
    requires Consistent(c) && id !in c.incoming
    ensures Consistent(Appended(c, Entry(false, Received, [], Some(id), text)).(incoming := c.incoming[id := c.last + 1]))
  {
    assert c.last + 1 !in c.entries;
  }

  lemma AdvanceKeeps(c: Chat, number: nat, state: EntryState, id: Option<MessageId>)
    requires Consistent(c) && number in c.entries && !state.Received? && !state.Queued?
    ensures Consistent(c.(entries := c.entries[number := Advanced(c.entries[number], state, id)]))
  {
    var (e, f) := (c.entries[number], Advanced(c.entries[number], state, id));
    assert f.outgoing == e.outgoing && f.app == e.app && (e.id.Some? ==> f.id == e.id);
    assert f.state.Received? <==> e.state.Received?;
    hide Advanced, Forward;
  }

  lemma ApplyKeepsConsistent(c: Chat, tx: ChatTx)
    requires Consistent(c)
    requires tx.Advance? ==> !tx.state.Received? && !tx.state.Queued?
    ensures Consistent(Apply(c, tx))
  {
    match tx
    case Queue(app, text, sentRaw) =>
      if app !in c.outgoing && !sentRaw && app !in c.claims {
        QueueKeeps(c, app, text);
      }
    case RecordIncoming(id, text) =>
      if id !in c.incoming {
        RecordKeeps(c, id, text);
      }
    case Advance(number, state, id) =>
      if number in c.entries {
        AdvanceKeeps(c, number, state, id);
      }
    case _ =>
  }

  /** What may become of an entry. */
  predicate Grows(e: Entry, f: Entry) {
    && f.outgoing == e.outgoing && f.app == e.app && f.text == e.text
    && (f.state == e.state || Forward(e.state, f.state))
    && (e.id.Some? ==> f.id == e.id)
  }

  /** Entries are never dropped or renumbered; their states only climb; an
      application id keeps its owner. */
  ghost predicate GrowsTo(c: Chat, t: Chat) {
    && c.last <= t.last
    && (forall n :: n in c.entries ==> n in t.entries && Grows(c.entries[n], t.entries[n]))
    && (forall app :: app in c.outgoing ==> app in t.outgoing && t.outgoing[app] == c.outgoing[app])
    && (forall id :: id in c.incoming ==> id in t.incoming && t.incoming[id] == c.incoming[id])
    && c.claims <= t.claims
  }

  lemma ApplyGrows(c: Chat, tx: ChatTx)
    requires Consistent(c)
    ensures GrowsTo(c, Apply(c, tx))
  {
  }

  lemma GrowsTransitive(a: Chat, b: Chat, c: Chat)
    requires GrowsTo(a, b) && GrowsTo(b, c)
    ensures GrowsTo(a, c)
  {
    forall n | n in a.entries
      ensures n in c.entries && Grows(a.entries[n], c.entries[n])
    {
      assert Grows(a.entries[n], b.entries[n]) && Grows(b.entries[n], c.entries[n]);
    }
  }
}

/** The history over every run of the messenger beneath it. */
module ChatRuns {
  import opened Prelude
  import opened Bytes
  import opened SymbolicKeys
  import opened StoreRecords
  import opened ConditionalWrites
  import opened MessengerModel
  import opened MessengerInvariant
  import opened MessengerRuns
  import opened MessengerGuarantees
  import opened WireCodec
  import opened ChatModel

  /** The conversation with one peer beside a run of the messenger: at each index
      either may have committed a transaction. */
  datatype ChatRun = ChatRun(run: Run, chats: seq<Chat>, steps: seq<ChatTx>)

  /** What a refresh knew when it advanced an entry: a send of the entry's text
      returned, or an entry no longer queued was compared with its send record, or
      the relay took its message. */
  ghost predicate Reason(y: Identity, c: Contents, e: ChatModel.Entry, state: EntryState, id: Option<MessageId>) {
    var status := Status(c, y, TextId(e.app));
    && e.outgoing
    && (|| (e.state.Queued? && state.Pending? && status.Pending? && id == Some(status.message.id))
        || (e.state.Queued? && state.Delivered? && status.Acknowledged? && id == Some(status.id))
        || (e.state.Queued? && state.NotDelivered? && status.Abandoned? && id == Some(status.id))
        || (InFlight(e) && id.None? && state.Delivered? && status.Acknowledged? && e.id == Some(status.id))
        || (InFlight(e) && id.None? && state.NotDelivered? && status.Abandoned? && e.id == Some(status.id))
        || (e.state.Pending? && id.None? && state.Transmitted?))
  }

  predicate InFlight(e: ChatModel.Entry) {
    e.state.Pending? || e.state.Transmitted?
  }

  /** What the resolution of a session conflict knew when it gave an entry up: this
      device is the one to resolve it, and its own session was unconfirmed. */
  predicate GivesUp(d: Device, y: Identity, c: Contents, e: ChatModel.Entry, state: EntryState, id: Option<MessageId>) {
    && d.our > y && e.outgoing && InFlight(e) && state.NotDelivered? && id.None?
    && SessionKey(y) in c && c[SessionKey(y)].SessionRecord? && !Established(c[SessionKey(y)].session)
  }

  /** A refresh reads the entry and then the records it compares; a resolution
      looks at the session first. `j` is when the entry was read. */
  ghost predicate Justified(d: Device, y: Identity, versions: seq<Contents>, chats: seq<Chat>, i: nat, tx: ChatTx)
    requires i < |versions| == |chats|
  {
    match tx
    case Queue(app, _, sentRaw) =>
      exists k :: 0 <= k <= i && sentRaw == !Status(versions[k], y, TextId(app)).NotSent?
    case RecordIncoming(id, text) =>
      exists k :: 0 <= k <= i && DeliveryOf(versions[k], y, id).Undelivered?
                  && DeliveryOf(versions[k], y, id).message.plaintext == StoreRecords.Text(text)
    case Advance(n, state, id) =>
      exists j, k :: 0 <= j <= i && 0 <= k <= i && AdvanceReason(d, y, versions, chats, n, state, id, j, k)
    case _ => true
  }

  ghost predicate AdvanceReason(d: Device, y: Identity, versions: seq<Contents>, chats: seq<Chat>, n: nat, state: EntryState,
                                id: Option<MessageId>, j: nat, k: nat)
    requires j < |versions| == |chats| && k < |versions|
  {
    && n in chats[j].entries
    && (|| (j <= k && Reason(y, versions[k], chats[j].entries[n], state, id))
        || (k <= j && GivesUp(d, y, versions[k], chats[j].entries[n], state, id)))
  }

  /** Texts are sent only for an entry, with its text, or under a claim. */
  ghost predicate SendRule(y: Identity, chats: seq<Chat>, i: nat, tx: Tx)
    requires i < |chats|
  {
    tx.Send? && tx.index == y && |tx.client| > 0 && tx.client[0] == TEXT ==>
      exists k :: 0 <= k <= i &&
        (SendsEntry(chats[k], tx.client[1..], tx.plaintext) || tx.client[1..] in chats[k].claims)
  }

  predicate SendsEntry(c: Chat, app: AppId, plaintext: StoreRecords.Payload) {
    app in c.outgoing && c.outgoing[app] in c.entries && plaintext == StoreRecords.Text(c.entries[c.outgoing[app]].text)
  }

  ghost predicate IsChatRun(d: Device, y: Identity, cr: ChatRun) {
    && IsRun(d, cr.run) && NoCollision(d, cr.run)
    && |cr.chats| == |cr.run.versions| == |cr.run.next| == |cr.steps| + 1 == |cr.run.events| + 1
    && cr.chats[0] == EMPTY && (forall app :: SendIdKey(y, TextId(app)) !in cr.run.versions[0])
    && forall i :: 0 <= i < |cr.steps| ==> ChatStepOf(d, y, cr, i)
  }

  ghost predicate ChatStepOf(d: Device, y: Identity, cr: ChatRun, i: nat)
    requires |cr.chats| == |cr.run.versions| == |cr.steps| + 1 == |cr.run.events| + 1 && i < |cr.steps|
  {
    && (cr.chats[i + 1] == Apply(cr.chats[i], cr.steps[i]) || cr.chats[i + 1] == cr.chats[i])
    && Justified(d, y, cr.run.versions, cr.chats, i, cr.steps[i])
    && SendRule(y, cr.chats, i, cr.run.events[i].tx)
  }

  /** The history agrees with the send records: an entry's message is the one its
      own application id is bound to, `Delivered` is an acknowledged message, and
      a text is on record only for its entry, word for word, or under a claim. */
  ghost predicate Agrees(y: Identity, c: Contents, chat: Chat) {
    && (forall n :: n in chat.entries && chat.entries[n].outgoing ==> EntryAgrees(y, c, chat.entries[n]))
    && (forall app, id :: BoundTo(c, y, TextId(app), id) ==> TextAgrees(chat, app, id))
  }

  ghost predicate EntryAgrees(y: Identity, c: Contents, e: ChatModel.Entry) {
    && (e.id.Some? ==> BoundTo(c, y, TextId(e.app), e.id.value))
    && (e.state.Delivered? ==> e.id.Some? && Status(c, y, TextId(e.app)) == Acknowledged(e.id.value))
    && (!e.state.Queued? ==> e.id.Some?)
  }

  predicate TextAgrees(chat: Chat, app: AppId, id: MessageId) {
    (id.cipher.Sealed? && SendsEntry(chat, app, id.cipher.plaintext)) || app in chat.claims
  }

  lemma AcknowledgedStays(d: Device, r: Run, k: nat, i: nat, y: Identity, client: ClientId)
    requires IsRun(d, r) && NoCollision(d, r) && k <= i < |r.versions|
    requires Status(r.versions[k], y, client).Acknowledged?
    ensures Status(r.versions[i], y, client) == Status(r.versions[k], y, client)
  {
    StatusOnlyMovesForward(d, r, k, i, y, client);
  }

  lemma StatusBinds(d: Device, r: Run, k: nat, i: nat, y: Identity, client: ClientId)
    requires IsRun(d, r) && NoCollision(d, r) && k <= i < |r.versions|
    ensures var s := Status(r.versions[k], y, client);
            && (s.Pending? ==> BoundTo(r.versions[i], y, client, s.message.id))
            && (s.Acknowledged? ==> BoundTo(r.versions[i], y, client, s.id))
            && (s.Abandoned? ==> BoundTo(r.versions[i], y, client, s.id))
  {
    InvAt(d, r, k);
    var s := Status(r.versions[k], y, client);
    if s.Pending? {
      assert Lookup(r.versions[k], SendIdKey(y, client)) == Some(SentRecord(s.message.id));
      BindingStays(d, r, k, i, y, client, s.message.id);
    } else if s.Acknowledged? || s.Abandoned? {
      BindingStays(d, r, k, i, y, client, s.id);
    }
  }

  // ── The records over a run ────────────────────────────────────────────────

  lemma EmptyIsConsistent()
    ensures Consistent(EMPTY)
  {
  }

  lemma {:induction false} HistoryIsConsistent(d: Device, y: Identity, cr: ChatRun, i: nat)
    requires IsChatRun(d, y, cr) && i < |cr.chats|
    ensures Consistent(cr.chats[i])
  {
    hide IsRun, NoCollision, SendRule;
    if i == 0 {
      EmptyIsConsistent();
    } else {
      hide Consistent;
      HistoryIsConsistent(d, y, cr, i - 1);
      assert ChatStepOf(d, y, cr, i - 1);
      ApplyKeepsConsistent(cr.chats[i - 1], cr.steps[i - 1]);
    }
  }

  /** Whatever the interleaving, entries keep their number, text and owner, and
      their states only climb the forward order. */
  lemma {:induction false} HistoryOnlyGrows(d: Device, y: Identity, cr: ChatRun, k: nat, i: nat)
    requires IsChatRun(d, y, cr) && k <= i < |cr.chats|
    ensures GrowsTo(cr.chats[k], cr.chats[i])
  {
    hide IsRun, NoCollision, SendRule, Justified, Consistent;
    if k < i {
      HistoryOnlyGrows(d, y, cr, k, i - 1);
      HistoryIsConsistent(d, y, cr, i - 1);
      assert ChatStepOf(d, y, cr, i - 1);
      ApplyGrows(cr.chats[i - 1], cr.steps[i - 1]);
      ApplyGrows(cr.chats[i - 1], Idle);
      GrowsTransitive(cr.chats[k], cr.chats[i - 1], cr.chats[i]);
    }
  }

  lemma BoundOnce(c: Contents, y: Identity, client: ClientId, a: MessageId, b: MessageId)
    requires BoundTo(c, y, client, a) && BoundTo(c, y, client, b)
    ensures a == b
  {
  }

  /** An entry that agreed, and did not change, still agrees one version later. */
  lemma EntryStaysAgreed(d: Device, y: Identity, r: Run, i: nat, e: ChatModel.Entry)
    requires IsRun(d, r) && NoCollision(d, r) && i + 1 < |r.versions| && EntryAgrees(y, r.versions[i], e)
    ensures EntryAgrees(y, r.versions[i + 1], e)
  {
    hide IsRun, NoCollision, Status, BoundTo;
    if e.id.Some? {
      BindingStays(d, r, i, i + 1, y, TextId(e.app), e.id.value);
    }
    if e.state.Delivered? {
      AcknowledgedStays(d, r, i, i + 1, y, TextId(e.app));
    }
  }

  /** Advancing an entry for a reason read earlier keeps it in agreement. */
  lemma AdvanceAgrees(d: Device, y: Identity, r: Run, i: nat, k: nat, was: ChatModel.Entry, e: ChatModel.Entry,
                      state: EntryState, id: Option<MessageId>)
    requires IsRun(d, r) && NoCollision(d, r) && k <= i && i + 1 < |r.versions|
    requires Grows(was, e) && EntryAgrees(y, r.versions[i], e)
    requires Reason(y, r.versions[k], was, state, id) || GivesUp(d, y, r.versions[k], was, state, id)
    ensures EntryAgrees(y, r.versions[i + 1], Advanced(e, state, id))
  {
    hide IsRun, NoCollision, Status, BoundTo;
    var client := TextId(e.app);
    EntryStaysAgreed(d, y, r, i, e);
    StatusBinds(d, r, k, i + 1, y, client);
    if id.Some? && e.id.Some? {
      BoundOnce(r.versions[i + 1], y, client, id.value, e.id.value);
    }
    if Status(r.versions[k], y, client).Acknowledged? {
      AcknowledgedStays(d, r, k, i + 1, y, client);
    }
  }

  /** The step's chat transaction leaves every own entry in agreement. */
  lemma EntriesAgree(d: Device, y: Identity, cr: ChatRun, i: nat, n: nat)
    requires IsChatRun(d, y, cr) && i < |cr.steps| && Agrees(y, cr.run.versions[i], cr.chats[i])
    requires n in cr.chats[i + 1].entries && cr.chats[i + 1].entries[n].outgoing
    ensures EntryAgrees(y, cr.run.versions[i + 1], cr.chats[i + 1].entries[n])
  {
    hide IsRun, NoCollision, SendRule, EntryAgrees, Reason, GivesUp, Consistent;
    assert ChatStepOf(d, y, cr, i);
    HistoryIsConsistent(d, y, cr, i);
    var (chat, tx) := (cr.chats[i], cr.steps[i]);
    assert chat.last + 1 !in chat.entries by { NextIsFree(chat); }
    if n !in chat.entries {
      NewEntryAgrees(y, cr.run.versions[i + 1], cr.chats[i + 1].entries[n]);
    } else {
      assert chat.entries[n].outgoing by {
        HistoryOnlyGrows(d, y, cr, i, i + 1);
      }
      EntryStaysAgreed(d, y, cr.run, i, chat.entries[n]);
      if tx.Advance? && tx.number == n && cr.chats[i + 1].entries[n] != chat.entries[n] {
        var j, k :| 0 <= j <= i && 0 <= k <= i && AdvanceReason(d, y, cr.run.versions, cr.chats, n, tx.state, tx.id', j, k);
        HistoryOnlyGrows(d, y, cr, j, i);
        AdvanceAgrees(d, y, cr.run, i, k, cr.chats[j].entries[n], chat.entries[n], tx.state, tx.id');
        assert cr.chats[i + 1].entries[n] == Advanced(chat.entries[n], tx.state, tx.id');
      }
    }
  }

  lemma NextIsFree(chat: Chat)
    requires Consistent(chat)
    ensures chat.last + 1 !in chat.entries
  {
  }

  lemma NewEntryAgrees(y: Identity, c: Contents, e: ChatModel.Entry)
    requires e.state.Queued? && e.id.None?
    ensures EntryAgrees(y, c, e)
  {
  }

  lemma TextStaysAgreed(chat: Chat, chat': Chat, app: AppId, id: MessageId)
    requires TextAgrees(chat, app, id) && GrowsTo(chat, chat')
    ensures TextAgrees(chat', app, id)
  {
  }

  /** A binding the step made was made by a send of the entry's own text. */
  lemma NewBinding(d: Device, next: nat, c: Contents, tx: Tx, fault: Fault, y: Identity, client: ClientId, id: MessageId)
    requires Inv(d, next, c) && Formed(d, next, tx)
    requires BoundTo(After(d, next, c, tx, fault), y, client, id) && !BoundTo(c, y, client, id)
    ensures tx.Send? && tx.index == y && tx.client == client && id.cipher.Sealed? && id.cipher.plaintext == tx.plaintext
  {
    hide SessionRows, Incoming, DistinctPositions, StagedReceive, Candidate, CheckAnswerable;
  }

  lemma TextsAgree(d: Device, y: Identity, cr: ChatRun, i: nat, app: AppId, id: MessageId)
    requires IsChatRun(d, y, cr) && i < |cr.steps| && Agrees(y, cr.run.versions[i], cr.chats[i])
    requires BoundTo(cr.run.versions[i + 1], y, TextId(app), id)
    ensures TextAgrees(cr.chats[i + 1], app, id)
  {
    hide IsRun, NoCollision, BoundTo, Inv, TextAgrees, GrowsTo, EntryAgrees, Formed, Justified;
    var e := cr.run.events[i];
    HistoryOnlyGrows(d, y, cr, i, i + 1);
    if BoundTo(cr.run.versions[i], y, TextId(app), id) {
      TextStaysAgreed(cr.chats[i], cr.chats[i + 1], app, id);
    } else {
      StepAt(d, cr.run, i);
      NewBinding(d, cr.run.next[i], cr.run.versions[i], e.tx, e.fault, y, TextId(app), id);
      assert ChatStepOf(d, y, cr, i);
      assert TextId(app)[1..] == app && TextId(app)[0] == TEXT;
      var k :| 0 <= k <= i && (SendsEntry(cr.chats[k], app, e.tx.plaintext) || app in cr.chats[k].claims);
      HistoryOnlyGrows(d, y, cr, k, i + 1);
      assert TextAgrees(cr.chats[k], app, id) by { Readable(cr.chats[k], app, id, e.tx.plaintext); }
      TextStaysAgreed(cr.chats[k], cr.chats[i + 1], app, id);
    }
  }

  lemma Readable(chat: Chat, app: AppId, id: MessageId, plaintext: StoreRecords.Payload)
    requires id.cipher.Sealed? && id.cipher.plaintext == plaintext
    requires SendsEntry(chat, app, plaintext) || app in chat.claims
    ensures TextAgrees(chat, app, id)
  {
  }

  lemma {:induction false} HistoryAgrees(d: Device, y: Identity, cr: ChatRun, i: nat)
    requires IsChatRun(d, y, cr) && i < |cr.chats|
    ensures Agrees(y, cr.run.versions[i], cr.chats[i])
  {
    hide IsRun, NoCollision, SendRule, Justified, ChatStepOf, EntryAgrees, TextAgrees;
    if i > 0 {
      HistoryAgrees(d, y, cr, i - 1);
      forall n | n in cr.chats[i].entries && cr.chats[i].entries[n].outgoing
        ensures EntryAgrees(y, cr.run.versions[i], cr.chats[i].entries[n])
      {
        EntriesAgree(d, y, cr, i - 1, n);
      }
      forall app, id | BoundTo(cr.run.versions[i], y, TextId(app), id)
        ensures TextAgrees(cr.chats[i], app, id)
      {
        TextsAgree(d, y, cr, i - 1, app, id);
      }
    }
  }

  // ── What the history says ─────────────────────────────────────────────────

  /** `Delivered` means acknowledged: the send record under the entry's own
      application id names the entry's message, and it left the outbox through an
      acknowledgement. */
  lemma DeliveredIsAcknowledged(d: Device, y: Identity, cr: ChatRun, i: nat, n: nat)
    requires IsChatRun(d, y, cr) && i < |cr.chats| && n in cr.chats[i].entries && cr.chats[i].entries[n].state.Delivered?
    ensures var e := cr.chats[i].entries[n];
            e.outgoing && e.id.Some? && Status(cr.run.versions[i], y, TextId(e.app)) == Acknowledged(e.id.value)
  {
    HistoryIsConsistent(d, y, cr, i);
    hide IsRun, NoCollision, ChatStepOf;
    HistoryAgrees(d, y, cr, i);
  }

  /** What the history shows is what was encrypted: any message on record for an
      entry holds exactly the entry's text. */
  lemma SentAsShown(d: Device, y: Identity, cr: ChatRun, i: nat, n: nat, id: MessageId)
    requires IsChatRun(d, y, cr) && i < |cr.chats| && n in cr.chats[i].entries && cr.chats[i].entries[n].outgoing
    requires BoundTo(cr.run.versions[i], y, TextId(cr.chats[i].entries[n].app), id)
    ensures id.cipher.Sealed? && id.cipher.plaintext == StoreRecords.Text(cr.chats[i].entries[n].text)
  {
    HistoryIsConsistent(d, y, cr, i);
    hide IsRun, NoCollision, ChatStepOf, BoundTo, EntryAgrees;
    HistoryAgrees(d, y, cr, i);
    assert TextAgrees(cr.chats[i], cr.chats[i].entries[n].app, id);
  }
}

/** The whole stack: what `Delivered` in one device's history says about the
    other device's store. */
module DeliveredEndToEnd {
  import opened Prelude
  import opened StoreRecords
  import opened MessengerModel
  import opened MessengerRuns
  import opened MessengerGuarantees
  import opened WireCodec
  import opened EndToEnd
  import opened EndToEndRuns
  import opened ChatRuns
  import Chat = ChatModel

  /** Whatever the relay loses, reorders, repeats or forges, and however the
      instances on either device interleave: a text shown as delivered is held by
      the peer as accepted, under that very message; and what the peer accepted,
      and what it lists until read, is word for word the text shown. */
  lemma DeliveredIsHeld(da: Device, db: Device, w: WorldRun, cr: ChatRun, i: nat, n: nat)
    requires IsWorldRun(da, db, w) && IsChatRun(da, db.our, cr) && cr.run == w.a && i < |cr.chats|
    requires n in cr.chats[i].entries && cr.chats[i].entries[n].state.Delivered?
    ensures var e := cr.chats[i].entries[n];
            && e.id.Some?
            && var held := DeliveryOf(w.b.versions[i], da.our, e.id.value);
               && !held.NotAccepted?
               && e.id.value.cipher.Sealed? && e.id.value.cipher.plaintext == StoreRecords.Text(e.text)
               && (held.Undelivered? ==> held.message.plaintext == StoreRecords.Text(e.text))
  {
    var e := cr.chats[i].entries[n];
    DeliveredIsAcknowledged(da, db.our, cr, i, n);
    hide IsWorldRun, IsChatRun, DeliveryOf;
    assert !ReceiptClient(TextId(e.app));
    AcknowledgedIsHeld(da, db, w, i, TextId(e.app), e.id.value);
    AcknowledgedIsBound(w.a.versions[i], db.our, TextId(e.app), e.id.value);
    SentAsShown(da, db.our, cr, i, n, e.id.value);
  }

  lemma AcknowledgedIsBound(c: Contents, y: nat, client: ClientId, id: MessageId)
    requires Status(c, y, client) == Acknowledged(id)
    ensures BoundTo(c, y, client, id)
  {
  }
}

/** Why the calls of a conversation fail: what its records showed while a call
    ran. */
module ConversationCauses {
  import opened Prelude
  import opened SymbolicKeys
  import opened StoreRecords
  import opened ConditionalWrites
  import opened MessengerModel
  import opened MessengerGuarantees
  import opened MessagingReports
  import opened MessengerCauses
  import opened MessengerRecovery
  import opened NetworkRules
  import CO = ConversationOutcomes
  import P = PendingLists
  import C = ChatModel
  import W = WireCodec

  datatype ChatError =
    | InvalidText
    | TakenBySendText
    | TakenByHistory
    | CorruptEntry
    | NoConflict
    | PeerResolves
    | ChatStore
    | FromMessenger(error: MessagingError)

  // ── The messenger's part ──────────────────────────────────────────────────

  /** The record of an earlier send of some text could not be read. */
  ghost predicate PriorUnread(versions: seq<Contents>, since: nat, y: Identity, x: MessagingError) {
    exists app: C.AppId, k: nat :: Within(versions, since, k) && PriorError(versions[k], y, W.TextId(app)) == Some(x)
  }

  ghost predicate TextFailed(d: Device, versions: seq<Contents>, since: nat, was: map<nat, Unresolved>, handle: nat, did: seq<Step>,
                             x: MessagingError)
  {
    exists app: C.AppId :: SendingFailed(d, versions, since, was, handle, W.TextId(app), did, x)
  }

  ghost predicate UpkeepFails(u: Upkeep, versions: seq<Contents>, since: nat, handle: nat, did: seq<Step>, x: MessagingError) {
    exists id: MessageId :: KeepingFailed(u, versions, since, handle, id, did, x)
  }

  ghost predicate RemovingFailed(d: Device, versions: seq<Contents>, since: nat, was: map<nat, Unresolved>, handle: nat, did: seq<Step>,
                                 x: MessagingError)
  {
    exists step: Option<Step> :: OneOf(step, did) && RemoveFailed(d, versions, since, was, handle, step, x)
  }

  /** Some call on the messenger failed: its session, a send record, the inbox or
      the outbox could not be read, or one of its transactions failed. */
  ghost predicate MessengerTrouble(d: Device, versions: seq<Contents>, since: nat, handle: nat, y: Identity, was: map<nat, Unresolved>,
                                   did: seq<Step>, x: MessagingError)
  {
    || LoadFailed(versions, since, d.our, handle, x)
    || PriorUnread(versions, since, y, x)
    || InboxListFailed(versions, since, handle, x) || OutboxListFailed(versions, since, handle, x)
    || TextFailed(d, versions, since, was, handle, did, x)
    || UpkeepFails(UpkeepAckIn, versions, since, handle, did, x) || UpkeepFails(UpkeepAbandon, versions, since, handle, did, x)
    || RemovingFailed(d, versions, since, was, handle, did, x)
  }

  // ── The history's part ────────────────────────────────────────────────────

  /** The history had the entry, or counts it, or points at it. */
  predicate Counted(c: C.Chat, number: nat) {
    number in c.entries || 1 <= number <= c.last || number in c.outgoing.Values
  }

  ghost predicate MissingAt(chats: seq<C.Chat>, since: nat, number: nat, i: nat, j: nat) {
    i < |chats| && since <= j < |chats| && Counted(chats[i], number) && number !in chats[j].entries
  }

  /** An entry the history counted was not there. */
  ghost predicate EntryMissing(chats: seq<C.Chat>, since: nat) {
    exists number: nat, i: nat, j: nat :: MissingAt(chats, since, number, i, j)
  }

  /** Why a call fails; `refused` says that a commit of its own to the history did
      not report success. */
  ghost predicate ChatTrouble(d: Device, past: CO.Past, since: nat, handle: nat, y: Identity, was: map<nat, Unresolved>, did: seq<Step>,
                              refused: bool, e: ChatError)
  {
    match e
    case ChatStore => refused
    case CorruptEntry => EntryMissing(past.chats, since)
    case FromMessenger(x) => MessengerTrouble(d, past.versions, since, handle, y, was, did, x)
    case _ => false
  }

  /** There is no session only if one was seen, and went away. */
  ghost predicate SessionLost(versions: seq<Contents>, since: nat, handle: nat, e: ChatError) {
    e == FromMessenger(NoSession) ==> SlotTaken(versions, since, handle)
  }

  // ── Each call's trouble ───────────────────────────────────────────────────

  lemma LoadTroubles(d: Device, mid: seq<Contents>, versions: seq<Contents>, since: nat, handle: nat, y: Identity,
                     was: map<nat, Unresolved>, did: seq<Step>, x: MessagingError)
    requires mid <= versions && LoadFailed(mid, since, d.our, handle, x)
    ensures MessengerTrouble(d, versions, since, handle, y, was, did, x)
  {
    hide LoadFailed, PriorUnread, InboxListFailed, OutboxListFailed, TextFailed, UpkeepFails, RemovingFailed;
    LoadFailedLater(mid, versions, since, since, d.our, handle, x);
  }

  lemma HandleTroubles(d: Device, versions: seq<Contents>, since: nat, handle: nat, y: Identity, was: map<nat, Unresolved>,
                       did: seq<Step>, k: nat, x: MessagingError)
    requires Within(versions, since, k) && HandleError(versions[k], handle) == Some(x)
    ensures MessengerTrouble(d, versions, since, handle, y, was, did, x)
  {
    HandleFails(versions, since, handle, k, x);
    hide HandleFailed, PriorUnread, InboxListFailed, OutboxListFailed, TextFailed, UpkeepFails, RemovingFailed;
  }

  lemma PriorTroubles(d: Device, versions: seq<Contents>, since: nat, handle: nat, y: Identity, was: map<nat, Unresolved>,
                      did: seq<Step>, app: C.AppId, k: nat, x: MessagingError)
    requires Within(versions, since, k) && PriorError(versions[k], y, W.TextId(app)) == Some(x)
    ensures MessengerTrouble(d, versions, since, handle, y, was, did, x) && x != NoSession
  {
    PriorErrors(versions[k], y, W.TextId(app));
    hide PriorError, LoadFailed, InboxListFailed, OutboxListFailed, TextFailed, UpkeepFails, RemovingFailed;
    assert PriorUnread(versions, since, y, x);
  }

  lemma InboxTroubles(d: Device, mid: seq<Contents>, versions: seq<Contents>, since: nat, handle: nat, y: Identity,
                      was: map<nat, Unresolved>, did: seq<Step>, x: MessagingError)
    requires mid <= versions && InboxListFailed(mid, since, handle, x)
    ensures MessengerTrouble(d, versions, since, handle, y, was, did, x)
  {
    hide LoadFailed, PriorUnread, InboxListFailed, OutboxListFailed, TextFailed, UpkeepFails, RemovingFailed;
    InboxListFailedLater(mid, versions, since, since, handle, x);
  }

  lemma OutboxTroubles(d: Device, mid: seq<Contents>, versions: seq<Contents>, since: nat, handle: nat, y: Identity,
                       was: map<nat, Unresolved>, did: seq<Step>, x: MessagingError)
    requires mid <= versions && OutboxListFailed(mid, since, handle, x)
    ensures MessengerTrouble(d, versions, since, handle, y, was, did, x)
  {
    hide LoadFailed, PriorUnread, InboxListFailed, OutboxListFailed, TextFailed, UpkeepFails, RemovingFailed;
    OutboxListFailedLater(mid, versions, since, since, handle, x);
  }

  lemma TextTroubles(d: Device, versions: seq<Contents>, since: nat, handle: nat, y: Identity, was: map<nat, Unresolved>,
                     did: seq<Step>, app: C.AppId, x: MessagingError)
    requires SendingFailed(d, versions, since, was, handle, W.TextId(app), did, x)
    ensures MessengerTrouble(d, versions, since, handle, y, was, did, x)
  {
    hide LoadFailed, PriorUnread, InboxListFailed, OutboxListFailed, SendingFailed, UpkeepFails, RemovingFailed;
    assert TextFailed(d, versions, since, was, handle, did, x);
  }

  lemma UpkeepTroubles(d: Device, u: Upkeep, mid: seq<Contents>, versions: seq<Contents>, since: nat, handle: nat, y: Identity,
                       was: map<nat, Unresolved>, did: seq<Step>, id: MessageId, step: Option<Step>, x: MessagingError)
    requires mid <= versions && UpkeepFailed(u, mid, since, handle, id, step, x) && (u.UpkeepAckIn? || u.UpkeepAbandon?)
    requires forall s :: s in Taken(step) ==> s in did
    ensures MessengerTrouble(d, versions, since, handle, y, was, did, x)
  {
    hide LoadFailed, PriorUnread, InboxListFailed, OutboxListFailed, TextFailed, UpkeepFailed, KeepingFailed, RemovingFailed;
    KeepingFails(u, mid, since, handle, id, step, x);
    KeepingFailedLater(u, mid, versions, since, since, handle, id, Taken(step), did, x);
    assert UpkeepFails(u, versions, since, handle, did, x);
  }

  lemma RemoveTroubles(d: Device, mid: seq<Contents>, versions: seq<Contents>, since: nat, handle: nat, y: Identity,
                       was: map<nat, Unresolved>, did: seq<Step>, step: Option<Step>, x: MessagingError)
    requires mid <= versions && RemoveFailed(d, mid, since, was, handle, step, x)
    requires forall s :: s in Taken(step) ==> s in did
    ensures MessengerTrouble(d, versions, since, handle, y, was, did, x)
  {
    hide LoadFailed, PriorUnread, InboxListFailed, OutboxListFailed, TextFailed, UpkeepFails, RemoveFailed;
    RemoveFailedLater(d, mid, versions, since, since, was, handle, step, x);
    if step.Some? {
      assert step.value in Taken(step);
    }
    assert RemovingFailed(d, versions, since, was, handle, did, x);
  }

  // ── What holds of fewer versions holds of more ────────────────────────────

  lemma InboxListFailedLater(versions: seq<Contents>, later: seq<Contents>, since: nat, least: nat, handle: nat, e: MessagingError)
    requires versions <= later && least <= since && InboxListFailed(versions, since, handle, e)
    ensures InboxListFailed(later, least, handle, e)
  {
    hide HandleFailed, Named, InboxRowError;
    if HandleFailed(versions, since, handle, e) {
      HandleFailedLater(versions, later, since, least, handle, e);
    } else {
      var p: Identity, id: MessageId, j: nat, k: nat :|
        Named(versions, since, handle, p) && Within(versions, since, j) && InboxKey(p, id) in versions[j]
        && j <= k && Within(versions, since, k) && InboxRowError(versions[k], p, id) == Some(e);
      NamedLater(versions, later, since, least, handle, p);
      assert later[j] == versions[j] && later[k] == versions[k] && Within(later, least, j) && Within(later, least, k);
    }
  }

  lemma OutboxListFailedLater(versions: seq<Contents>, later: seq<Contents>, since: nat, least: nat, handle: nat, e: MessagingError)
    requires versions <= later && least <= since && OutboxListFailed(versions, since, handle, e)
    ensures OutboxListFailed(later, least, handle, e)
  {
    hide HandleFailed, Named, OutboxRowError;
    if HandleFailed(versions, since, handle, e) {
      HandleFailedLater(versions, later, since, least, handle, e);
    } else {
      var p: Identity, id: MessageId, j: nat, k: nat :|
        Named(versions, since, handle, p) && Within(versions, since, j) && OutboxKey(p, id) in versions[j]
        && j <= k && Within(versions, since, k) && OutboxRowError(versions[k], p, id) == Some(e);
      NamedLater(versions, later, since, least, handle, p);
      assert later[j] == versions[j] && later[k] == versions[k] && Within(later, least, j) && Within(later, least, k);
    }
  }

  lemma RemoveFailedLater(d: Device, versions: seq<Contents>, later: seq<Contents>, since: nat, least: nat, was: map<nat, Unresolved>,
                          handle: nat, step: Option<Step>, e: MessagingError)
    requires versions <= later && least <= since && RemoveFailed(d, versions, since, was, handle, step, e)
    ensures RemoveFailed(d, later, least, was, handle, step, e)
  {
    hide LoadFailed, Shown, Established, HasOutgoing, SessionMoved, CommitFailed;
    if LoadFailed(versions, since, d.our, handle, e) {
      LoadFailedLater(versions, later, since, least, d.our, handle, e);
    }
    forall base | Shown(versions, since, d.our, handle, base)
      ensures Shown(later, least, d.our, handle, base)
    {
      ShownLater(versions, later, since, least, d.our, handle, base);
    }
    forall k: nat | Within(versions, since, k)
      ensures Within(later, least, k) && later[k] == versions[k]
    {
    }
  }

  lemma UpkeepFailsLater(u: Upkeep, versions: seq<Contents>, later: seq<Contents>, since: nat, least: nat, handle: nat, did: seq<Step>,
                         more: seq<Step>, x: MessagingError)
    requires versions <= later && least <= since && (forall s :: s in did ==> s in more)
    requires UpkeepFails(u, versions, since, handle, did, x)
    ensures UpkeepFails(u, later, least, handle, more, x)
  {
    hide KeepingFailed;
    var id: MessageId :| KeepingFailed(u, versions, since, handle, id, did, x);
    KeepingFailedLater(u, versions, later, since, least, handle, id, did, more, x);
  }

  lemma TextFailedLater(d: Device, versions: seq<Contents>, later: seq<Contents>, since: nat, least: nat, was: map<nat, Unresolved>,
                        handle: nat, did: seq<Step>, more: seq<Step>, x: MessagingError)
    requires versions <= later && least <= since && (forall s :: s in did ==> s in more)
    requires TextFailed(d, versions, since, was, handle, did, x)
    ensures TextFailed(d, later, least, was, handle, more, x)
  {
    hide SendingFailed;
    var app: C.AppId :| SendingFailed(d, versions, since, was, handle, W.TextId(app), did, x);
    SendingFailedLater(d, versions, later, since, least, was, handle, W.TextId(app), did, more, x);
  }

  lemma TroubleLater(d: Device, versions: seq<Contents>, later: seq<Contents>, since: nat, least: nat, handle: nat, y: Identity,
                     was: map<nat, Unresolved>, did: seq<Step>, more: seq<Step>, x: MessagingError)
    requires versions <= later && least <= since && (forall s :: s in did ==> s in more)
    requires MessengerTrouble(d, versions, since, handle, y, was, did, x)
    ensures MessengerTrouble(d, later, least, handle, y, was, more, x)
  {
    hide LoadFailed, PriorError, InboxListFailed, OutboxListFailed, TextFailed, UpkeepFails, RemoveFailed;
    if LoadFailed(versions, since, d.our, handle, x) {
      LoadFailedLater(versions, later, since, least, d.our, handle, x);
    } else if PriorUnread(versions, since, y, x) {
      var app: C.AppId, k: nat :| Within(versions, since, k) && PriorError(versions[k], y, W.TextId(app)) == Some(x);
      assert Within(later, least, k) && PriorError(later[k], y, W.TextId(app)) == Some(x);
    } else if InboxListFailed(versions, since, handle, x) {
      InboxListFailedLater(versions, later, since, least, handle, x);
    } else if OutboxListFailed(versions, since, handle, x) {
      OutboxListFailedLater(versions, later, since, least, handle, x);
    } else if TextFailed(d, versions, since, was, handle, did, x) {
      TextFailedLater(d, versions, later, since, least, was, handle, did, more, x);
    } else if UpkeepFails(UpkeepAckIn, versions, since, handle, did, x) {
      UpkeepFailsLater(UpkeepAckIn, versions, later, since, least, handle, did, more, x);
    } else if UpkeepFails(UpkeepAbandon, versions, since, handle, did, x) {
      UpkeepFailsLater(UpkeepAbandon, versions, later, since, least, handle, did, more, x);
    } else {
      var step: Option<Step> :| OneOf(step, did) && RemoveFailed(d, versions, since, was, handle, step, x);
      RemoveFailedLater(d, versions, later, since, least, was, handle, step, x);
      assert OneOf(step, more);
    }
  }

  lemma ChatTroubleLater(d: Device, past: CO.Past, now: CO.Past, since: nat, least: nat, handle: nat, y: Identity,
                         was: map<nat, Unresolved>, did: seq<Step>, more: seq<Step>, refused: bool, later: bool, e: ChatError)
    requires CO.Extends(now, past) && least <= since && (forall s :: s in did ==> s in more) && (refused ==> later)
    requires ChatTrouble(d, past, since, handle, y, was, did, refused, e)
    ensures ChatTrouble(d, now, least, handle, y, was, more, later, e)
  {
    hide MessengerTrouble;
    match e
    case FromMessenger(x) => TroubleLater(d, past.versions, now.versions, since, least, handle, y, was, did, more, x);
    case CorruptEntry =>
      var number: nat, i: nat, j: nat :| MissingAt(past.chats, since, number, i, j);
      assert MissingAt(now.chats, least, number, i, j);
    case _ =>
  }
}

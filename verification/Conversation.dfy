/** What one connection does to a conversation: its chat transactions and its
    sends, beside everything other connections do. */
module ConversationSteps {
  import opened Prelude
  import opened SymbolicKeys
  import opened StoreRecords
  import opened ConditionalWrites
  import opened MessengerModel
  import opened MessengerRuns
  import opened MessengerGuarantees
  import opened Messaging
  import opened MessagingReports
  import MessengerRecovery
  import opened ChatRuns
  import M = NotDeliveredMeans
  import N = NetworkRules
  import P = PendingLists
  import C = ChatModel
  import W = WireCodec

  /** A chat transaction, at the version it found. */
  datatype ChatStep = ChatStep(at: nat, tx: C.ChatTx)

  /** Every version is as the invariants of all runs have it. */
  ghost predicate Regular(versions: seq<Contents>, chats: seq<C.Chat>, handle: nat, y: Identity) {
    N.Consistent(versions, handle, y) && forall j :: 0 <= j < |chats| ==> C.Consistent(chats[j])
  }

  /** In every run they are, for a peer nobody shares a handle with. */
  lemma RunsAreRegular(d: Device, y: Identity, cr: ChatRun)
    requires IsChatRun(d, y, cr) && forall q :: d.handleOf(q) == d.handleOf(y) ==> q == y
    ensures Regular(cr.run.versions, cr.chats, d.handleOf(y), y)
  {
    hide IsRun, NoCollision, ChatStepOf, C.Consistent, N.Consistent;
    N.RunsAreConsistent(d, cr.run, y);
    forall j | 0 <= j < |cr.chats|
      ensures C.Consistent(cr.chats[j])
    {
      HistoryIsConsistent(d, y, cr, j);
    }
  }

  /** The transaction is a step of a conversation: applied to the records it found,
      and made for a reason. */
  ghost predicate ChatTook(d: Device, handle: nat, y: Identity, versions: seq<Contents>, chats: seq<C.Chat>, s: ChatStep) {
    && |versions| == |chats| && s.at + 1 < |versions| && versions[s.at + 1] == versions[s.at]
    && (chats[s.at + 1] == C.Apply(chats[s.at], s.tx) || chats[s.at + 1] == chats[s.at])
    && (Regular(versions, chats, handle, y) ==> Justified(d, y, versions, chats, s.at, s.tx))
  }

  /** The transaction is a step of a run, and if it sends a text, one the history
      has or claims. A removal is of the session the handle names, so that is
      known of it once nobody else shares the handle. */
  ghost predicate StepTook(d: Device, handle: nat, y: Identity, versions: seq<Contents>, chats: seq<C.Chat>, s: Step) {
    && |versions| == |chats|
    && (Regular(versions, chats, handle, y) || !s.event.tx.Remove? ==> TookWithin(d, 0, [], versions, s))
    && (Regular(versions, chats, handle, y) ==> SendRule(y, chats, s.at, s.event.tx))
  }

  ghost predicate Obedient(d: Device, handle: nat, y: Identity, versions: seq<Contents>, chats: seq<C.Chat>,
                           taken: seq<ChatStep>, steps: seq<Step>)
  {
    && (forall i :: 0 <= i < |taken| ==> ChatTook(d, handle, y, versions, chats, taken[i]))
    && (forall i :: 0 <= i < |steps| ==> StepTook(d, handle, y, versions, chats, steps[i]))
  }

  lemma RegularBefore(versions: seq<Contents>, later: seq<Contents>, chats: seq<C.Chat>, chats': seq<C.Chat>, handle: nat, y: Identity)
    requires versions <= later && chats <= chats' && Regular(later, chats', handle, y)
    ensures Regular(versions, chats, handle, y)
  {
    hide C.Consistent, N.Consistent;
    N.ConsistentBefore(versions, later, handle, y);
    assert forall j :: 0 <= j < |chats| ==> chats'[j] == chats[j];
  }

  lemma ChatTookLater(d: Device, handle: nat, y: Identity, versions: seq<Contents>, later: seq<Contents>, chats: seq<C.Chat>,
                      chats': seq<C.Chat>, s: ChatStep)
    requires versions <= later && chats <= chats' && |later| == |chats'| && ChatTook(d, handle, y, versions, chats, s)
    ensures ChatTook(d, handle, y, later, chats', s)
  {
    hide Regular, Justified, C.Apply;
    if Regular(later, chats', handle, y) {
      RegularBefore(versions, later, chats, chats', handle, y);
      M.JustifiedStays(d, y, versions, later, chats, chats', s.at, s.tx);
    }
  }

  lemma StepTookLater(d: Device, handle: nat, y: Identity, versions: seq<Contents>, later: seq<Contents>, chats: seq<C.Chat>,
                      chats': seq<C.Chat>, s: Step)
    requires versions <= later && chats <= chats' && |later| == |chats'| && StepTook(d, handle, y, versions, chats, s)
    ensures StepTook(d, handle, y, later, chats', s)
  {
    hide Regular, Took, SendsEntry;
    var tx := s.event.tx;
    if Regular(later, chats', handle, y) {
      RegularBefore(versions, later, chats, chats', handle, y);
    }
    if Regular(later, chats', handle, y) || !tx.Remove? {
      assert versions[..s.at + 2] == later[..s.at + 2];
    }
    if Regular(later, chats', handle, y) && tx.Send? {
      if tx.index == y && |tx.client| > 0 && tx.client[0] == W.TEXT {
        var k :| 0 <= k <= s.at && (SendsEntry(chats[k], tx.client[1..], tx.plaintext) || tx.client[1..] in chats[k].claims);
        assert SendsEntry(chats'[k], tx.client[1..], tx.plaintext) || tx.client[1..] in chats'[k].claims;
      }
    }
  }

  lemma ObedientLater(d: Device, handle: nat, y: Identity, versions: seq<Contents>, later: seq<Contents>, chats: seq<C.Chat>,
                      chats': seq<C.Chat>, taken: seq<ChatStep>, steps: seq<Step>)
    requires versions <= later && chats <= chats' && |later| == |chats'| && Obedient(d, handle, y, versions, chats, taken, steps)
    ensures Obedient(d, handle, y, later, chats', taken, steps)
  {
    hide ChatTook, StepTook;
    forall i | 0 <= i < |taken|
      ensures ChatTook(d, handle, y, later, chats', taken[i])
    {
      ChatTookLater(d, handle, y, versions, later, chats, chats', taken[i]);
    }
    forall i | 0 <= i < |steps|
      ensures StepTook(d, handle, y, later, chats', steps[i])
    {
      StepTookLater(d, handle, y, versions, later, chats, chats', steps[i]);
    }
  }

  // ── Why each transaction is made ──────────────────────────────────────────

  lemma QueueJustified(d: Device, y: Identity, versions: seq<Contents>, chats: seq<C.Chat>, at: nat, k: nat, app: C.AppId,
                       text: Payload, sentRaw: bool)
    requires |versions| == |chats| && k <= at < |versions| && text.Text?
    requires sentRaw == !Status(versions[k], y, W.TextId(app)).NotSent?
    ensures Justified(d, y, versions, chats, at, C.Queue(app, text.body, sentRaw))
  {
    hide Status;
  }

  /** A text listed in the inbox may be recorded. */
  lemma IncomingJustified(d: Device, handle: nat, y: Identity, read: seq<Contents>, versions: seq<Contents>, chats: seq<C.Chat>,
                          at: nat, owner: Identity, m: IncomingMessage)
    requires |versions| == |chats| && at < |versions| && read <= versions && |read| <= at + 1
    requires Regular(versions, chats, handle, y) && HandleShowed(read, handle, owner) && P.ReadIncoming(read, owner, m)
    requires m.plaintext.Text?
    ensures Justified(d, y, versions, chats, at, C.RecordIncoming(m.id, m.plaintext.body))
  {
    hide C.Consistent;
    N.ConsistentBefore(read, versions, handle, y);
    N.OwnerIs(read, handle, y, owner);
    var row :| P.ShowsInbox(read, owner, row, m);
    var k :| 0 <= k < |read| && Lookup(read[k], InboxKey(owner, row)) == Some(InboxRecord(m));
    assert N.ConsistentRows(read[k], handle, y);
    assert DeliveryOf(versions[k], y, m.id) == Undelivered(m);
  }

  lemma AdvanceJustified(d: Device, y: Identity, versions: seq<Contents>, chats: seq<C.Chat>, at: nat, n: nat, e: C.Entry,
                         state: C.EntryState, id: Option<MessageId>, j: nat, k: nat)
    requires |versions| == |chats| && j <= k <= at < |versions| && n in chats[j].entries && chats[j].entries[n] == e
    requires Reason(y, versions[k], e, state, id)
    ensures Justified(d, y, versions, chats, at, C.Advance(n, state, id))
  {
    hide Reason, GivesUp;
    assert AdvanceReason(d, y, versions, chats, n, state, id, j, k);
  }

  lemma GivingUpJustified(d: Device, y: Identity, versions: seq<Contents>, chats: seq<C.Chat>, at: nat, n: nat, e: C.Entry,
                          j: nat, k: nat)
    requires |versions| == |chats| && k <= j <= at < |versions| && n in chats[j].entries && chats[j].entries[n] == e
    requires GivesUp(d, y, versions[k], e, C.EntryState.NotDelivered, None)
    ensures Justified(d, y, versions, chats, at, C.Advance(n, C.EntryState.NotDelivered, None))
  {
    hide Reason, GivesUp;
    assert AdvanceReason(d, y, versions, chats, n, C.EntryState.NotDelivered, None, j, k);
  }

  /** What a send that returned tells about its entry. */
  function CameTo(outcome: SendOutcome): Option<(C.EntryState, MessageId)> {
    match outcome
    case Sent(m) => Some((C.EntryState.Pending, m.id))
    case Repeated(Pending(m)) => Some((C.EntryState.Pending, m.id))
    case Repeated(Acknowledged(id)) => Some((C.EntryState.Delivered, id))
    case Repeated(Abandoned(id)) => Some((C.EntryState.NotDelivered, id))
    case Repeated(_) => None
  }

  /** The entry a send was for may advance to what the send reported. */
  lemma SendReason(y: Identity, c: Contents, e: C.Entry, outcome: SendOutcome)
    requires e.outgoing && e.state.Queued? && CameTo(outcome).Some?
    requires match outcome
             case Sent(m) => Status(c, y, W.TextId(e.app)) == Pending(m)
             case Repeated(status) => Status(c, y, W.TextId(e.app)) == status
    ensures Reason(y, c, e, CameTo(outcome).value.0, Some(CameTo(outcome).value.1))
  {
    hide Status;
  }
}

/** `chat.rs` on one connection. */
module Conversations {
  import opened Prelude
  import opened Bytes
  import opened SymbolicKeys
  import opened StoreRecords
  import opened ConditionalWrites
  import opened Storage
  import opened MessengerModel
  import opened MessengerRuns
  import opened MessengerGuarantees
  import opened Messaging
  import opened MessagingReports
  import MessengerRecovery
  import opened ChatRuns
  import opened ConversationSteps
  import opened ConversationOutcomes
  import opened ConversationCauses
  import opened NetworkLayer
  import MC = MessengerCauses
  import N = NetworkRules
  import P = PendingLists
  import C = ChatModel
  import W = WireCodec

  const MAX_APP_ID_LEN := 63
  const MAX_TEXT_LEN := 16384

  class Conversation {
    const net: NetworkMessenger
    const store: EncryptedStore
    const peer: Identity
    /** The chat records of this peer, as other connections may also write them. */
    var chat: C.Chat
    /** Every version they have had, beside those of the rest of the store. */
    ghost var chats: seq<C.Chat>
    /** Everything this connection did to them, and to the messenger's records. */
    ghost var taken: seq<ChatStep>
    ghost var steps: seq<Step>
    /** How many of its commits to the chat records did not report success. */
    ghost var refusals: nat

    function Handle(): nat {
      net.core.device.handleOf(peer)
    }

    ghost function Now(): Past
      reads this, store
    {
      Past(store.versions, chats)
    }

    ghost predicate Valid()
      reads this, store
    {
      && store.Valid() && |chats| == |store.versions| && chats[|chats| - 1] == chat
      && Obedient(net.core.device, Handle(), peer, store.versions, chats, taken, steps)
    }

    /** Nothing seen or done before is forgotten. */
    ghost predicate Grows(versions: seq<Contents>, was: seq<C.Chat>, did: seq<ChatStep>, did': seq<Step>)
      reads this, store
    {
      versions <= store.versions && was <= chats && did <= taken && did' <= steps
    }

    /** Why a call that began with `done` steps and `refused` refusals fails. */
    ghost predicate Troubled(from: nat, was: map<nat, MessengerRecovery.Unresolved>, done: nat, refused: nat, e: ChatError)
      reads this, store
    {
      done <= |steps| && ChatTrouble(net.core.device, Now(), from, Handle(), peer, was, steps[done..], refusals > refused, e)
    }

    /** Why a call that uses the chat records only fails. */
    ghost predicate ReadTroubled(from: nat, refused: nat, e: ChatError)
      reads this`refusals, this`chats
    {
      (e == ChatStore && refusals > refused) || (e == CorruptEntry && EntryMissing(chats, from))
    }

    lemma ReadsTroubled(from: nat, least: nat, was: map<nat, MessengerRecovery.Unresolved>, done: nat, refused: nat,
                        before: nat, e: ChatError)
      requires least <= from && done <= |steps| && before <= refused && ReadTroubled(from, refused, e)
      ensures Troubled(least, was, done, before, e) && ReadTroubled(least, before, e)
    {
      if e == CorruptEntry {
        var number: nat, i: nat, j: nat :| MissingAt(chats, from, number, i, j);
        assert MissingAt(chats, least, number, i, j);
      }
      hide MessengerTrouble, EntryMissing;
    }

    lemma CallTroubled(from: nat, was: map<nat, MessengerRecovery.Unresolved>, done: nat, refused: nat, x: MessagingError)
      requires done <= |steps| && MessengerTrouble(net.core.device, store.versions, from, Handle(), peer, was, steps[done..], x)
      ensures Troubled(from, was, done, refused, FromMessenger(x))
    {
      hide MessengerTrouble;
    }

    lemma CommitTroubled(from: nat, was: map<nat, MessengerRecovery.Unresolved>, done: nat, refused: nat)
      requires done <= |steps| && refusals > refused
      ensures Troubled(from, was, done, refused, ChatStore)
    {
    }

    lemma ReadIsMissing(from: nat, refused: nat, e: ChatError)
      requires e == CorruptEntry && EntryMissing(chats, from)
      ensures ReadTroubled(from, refused, e)
    {
    }

    /** The errors with a cause of their own are no trouble of the records. */
    lemma NotTaken(from: nat, was: map<nat, MessengerRecovery.Unresolved>, done: nat, refused: nat, e: ChatError)
      requires Troubled(from, was, done, refused, e)
      ensures e.ChatStore? || e.CorruptEntry? || e.FromMessenger?
    {
      hide MessengerTrouble, EntryMissing;
    }

    /** What failed part of a call failed the call. */
    lemma StillTroubled(from: nat, least: nat, was: map<nat, MessengerRecovery.Unresolved>, done: nat, begun: nat, refused: nat,
                        before: nat, e: ChatError)
      requires least <= from && begun <= done && before <= refused && Troubled(from, was, done, refused, e)
      ensures Troubled(least, was, begun, before, e)
    {
      hide ChatTrouble;
      assert forall s :: s in steps[done..] ==> s in steps[begun..];
      ChatTroubleLater(net.core.device, Now(), Now(), from, least, Handle(), peer, was, steps[done..], steps[begun..],
                       refusals > refused, refusals > before, e);
    }

    constructor (net: NetworkMessenger, store: EncryptedStore, peer: Identity)
      requires store.Valid() && |store.versions| == 1
      ensures Valid() && this.net == net && this.store == store && this.peer == peer && chat == C.EMPTY
      ensures taken == [] && steps == [] && refusals == 0
    {
      this.net, this.store, this.peer := net, store, peer;
      chat, chats, taken, steps, refusals := C.EMPTY, [C.EMPTY], [], [], 0;
    }

    /** Catches up with what other connections did to the chat records while the
        store was used. */
    method Follow(ghost before: seq<Contents>)
      requires store.Valid() && before <= store.versions && |chats| == |before| > 0
      requires Obedient(net.core.device, Handle(), peer, before, chats, taken, steps)
      modifies this`chat, this`chats, store
      ensures Valid() && old(chats) <= chats && old(store.versions) < store.versions
    {
      hide Obedient;
      store.Others();
      chat := *;
      ghost var (missing, was) := (|store.versions| - |before|, chats);
      ghost var now := chat;
      ghost var filler := seq(missing, (i: nat) => now);
      ghost var between: seq<C.Chat> :| |between| == |filler|;
      chats := chats + between[..missing - 1] + [chat];
      ObedientLater(net.core.device, Handle(), peer, before, store.versions, was, chats, taken, steps);
    }

    /** One chat transaction, on the records as they are once no other connection
        can write. One that changes nothing cannot fail to commit. */
    method Transact(tx: C.ChatTx) returns (r: Result<(), ChatError>, ghost at: nat)
      requires Valid()
      modifies this`chat, this`chats, this`refusals, store
      ensures Valid() && Grows(old(store.versions), old(chats), taken, steps)
      ensures |old(chats)| <= at && at + 2 == |chats| && store.versions[at + 1] == store.versions[at]
      ensures chats[at + 1] == C.Apply(chats[at], tx) || chats[at + 1] == chats[at]
      ensures r.Ok? ==> chat == C.Apply(chats[at], tx) && refusals == old(refusals)
      ensures r.Err? ==> r.error == ChatStore && refusals == old(refusals) + 1
      ensures chats[at] == C.Apply(chats[at], tx) ==> r.Ok?
    {
      hide Obedient, C.Apply;
      var fault: Fault := *;
      Follow(store.versions);
      ghost var (versions, was) := (store.versions, chats);
      at := |store.versions| - 1;
      if C.Apply(chat, tx) == chat {
        fault := NoFault;
      }
      var committed := store.Commit(store.contents, fault);
      if Kept(fault) {
        chat := C.Apply(chat, tx);
      }
      chats := chats + [chat];
      ObedientLater(net.core.device, Handle(), peer, versions, store.versions, was, chats, taken, steps);
      if committed.Err? {
        refusals := refusals + 1;
        return Err(ChatStore), at;
      }
      return Ok(()), at;
    }

    /** Moves an entry forward, if there is one of that number, as at version `i`. */
    method Advance(number: nat, state: C.EntryState, id: Option<MessageId>, ghost i: nat)
      returns (r: Result<(), ChatError>, ghost at: nat)
      requires Valid() && i < |chats| && Counted(chats[i], number)
      modifies this`chat, this`chats, this`refusals, store
      ensures Valid() && old(refusals) <= refusals && Grows(old(store.versions), old(chats), taken, steps)
      ensures |old(chats)| <= at && at + 2 == |chats| && store.versions[at + 1] == store.versions[at]
      ensures chats[at + 1] == C.Apply(chats[at], C.Advance(number, state, id)) || chats[at + 1] == chats[at]
      ensures r.Ok? ==> AdvancesAt(Now(), |old(chats)|, at, number, state, id)
      ensures r.Err? ==> ReadTroubled(|old(chats)|, old(refusals), r.error) && !r.error.FromMessenger?
    {
      hide Obedient, Counted;
      ghost var was := chats;
      r, at := Transact(C.Advance(number, state, id));
      if r.Ok? && number !in chat.entries {
        assert chats[i] == was[i];
        assert MissingAt(chats, |was|, number, i, |chats| - 1);
        return Err(CorruptEntry), at;
      }
    }

    ghost method Log(s: ChatStep)
      requires Valid() && ChatTook(net.core.device, Handle(), peer, store.versions, chats, s)
      modifies this`taken
      ensures Valid() && taken == old(taken) + [s]
    {
      hide ChatTook, StepTook;
      taken := taken + [s];
    }

    ghost method LogStep(s: Step)
      requires Valid() && StepTook(net.core.device, Handle(), peer, store.versions, chats, s)
      modifies this`steps
      ensures Valid() && steps == old(steps) + [s]
    {
      hide ChatTook, StepTook;
      steps := steps + [s];
    }

    /** One entry, counted at version `i`, as it is now. */
    method ReadEntry(number: nat, ghost i: nat) returns (r: Result<C.Entry, ChatError>, ghost j: nat)
      requires Valid() && i < |chats| && Counted(chats[i], number)
      modifies this`chat, this`chats, store
      ensures Valid() && old(refusals) <= refusals && Grows(old(store.versions), old(chats), taken, steps)
      ensures r.Ok? ==> EntryAt(Now(), |old(chats)|, j, number, r.value)
      ensures r.Err? ==> r.error == CorruptEntry && EntryMissing(chats, |old(chats)|)
    {
      hide Obedient, Counted;
      ghost var was := chats;
      Follow(store.versions);
      j := |chats| - 1;
      assert chats[i] == was[i];
      assert number !in chat.entries ==> MissingAt(chats, |was|, number, i, j);
      return if number in chat.entries then Ok(chat.entries[number]) else Err(CorruptEntry), j;
    }

    /** Every entry there is at version `j`, each as it is when its turn comes. */
    method ReadEntries() returns (r: Result<seq<C.Entry>, ChatError>, ghost j: nat, ghost js: seq<nat>)
      requires Valid()
      modifies this`chat, this`chats, store
      ensures Valid() && old(refusals) <= refusals && Grows(old(store.versions), old(chats), taken, steps)
      ensures r.Ok? ==> |old(chats)| <= j < |chats| && |r.value| == |js| == chats[j].last
      ensures r.Ok? ==> forall i :: 0 <= i < |js| ==> EntryAt(Now(), j, js[i], i + 1, r.value[i])
      ensures r.Err? ==> r.error == CorruptEntry && EntryMissing(chats, |old(chats)|)
    {
      hide Obedient, EntryMissing;
      Follow(store.versions);
      j, js := |chats| - 1, [];
      ghost var (before, was) := (store.versions, chats);
      var last, entries := chat.last, [];
      for n := 0 to last
        invariant Valid() && old(refusals) <= refusals && Grows(before, was, taken, steps)
        invariant |entries| == |js| == n
        invariant forall i :: 0 <= i < |js| ==> EntryAt(Now(), j, js[i], i + 1, entries[i])
      {
        var entry;
        ghost var (k, mid) := (0, chats);
        entry, k := ReadEntry(n + 1, j);
        if entry.Err? {
          MissingSince(chats, |mid|, |old(chats)|);
          return Err(entry.error), j, js;
        }
        entries, js := entries + [entry.value], js + [k];
      }
      return Ok(entries), j, js;
    }

    // ── Sending a text ────────────────────────────────────────────────────────

    /** Sends under the application id `app`, which the history or `send_text` has
        at version `j`. */
    method SendUnder(app: C.AppId, body: Bytes, ghost j: nat)
      returns (r: Result<SendOutcome, MessagingError>, ghost k: nat)
      requires Valid() && j < |chats|
      requires Regular(store.versions, chats, Handle(), peer) ==>
                 SendsEntry(chats[j], app, Payload.Text(body)) || app in chats[j].claims
      modifies this`chat, this`chats, this`steps, store, net.core
      ensures Valid() && old(refusals) <= refusals && Grows(old(store.versions), old(chats), taken, old(steps)) && taken == old(taken)
      ensures r.Ok? ==> ToldAt(Now(), |old(chats)|, Handle(), peer, app, r.value, k) && CameTo(r.value).Some?
      ensures r.Ok? ==> net.core.unresolved == old(net.core.unresolved)
      ensures r.Err? ==>
                N.SendingFailed(net.core.device, store.versions, |old(chats)|, old(net.core.unresolved), Handle(), W.TextId(app),
                              steps[|old(steps)|..], r.error)
    {
      hide Obedient, Took, SendDone, Regular, Told, ReportsPrior, SendsEntry, MC.SendFailed, N.SendingFailed;
      var fault: Fault := *;
      var nonce: nat := *;
      ghost var (before, was, unresolved) := (store.versions, chats, net.core.unresolved);
      ghost var step, prior;
      r, step, prior := net.core.Send(store, Handle(), W.TextId(app), Payload.Text(body), nonce, fault);
      ghost var (mid, now) := (store.versions, net.core.unresolved);
      Follow(before);
      k := if step.Some? then step.value.at + 1 else prior.at;
      if r.Ok? {
        if step.Some? {
          SentTold(net.core.device, before, mid, store.versions, chats, Handle(), peer, step.value, unresolved, now, r, app);
          SentIsKept(net.core.device, before, mid, step.value, unresolved, now, r);
        } else {
          PriorTold(mid, store.versions, chats, Handle(), peer, app, prior, r.value);
        }
      }
      if step.Some? {
        SendObeys(net.core.device, before, mid, store.versions, was, chats, Handle(), peer, step.value, app, body, j);
        LogStep(step.value);
      }
      if r.Err? {
        N.SendingFails(net.core.device, mid, |before|, unresolved, Handle(), W.TextId(app), step, r.error);
        LoggedSince(old(steps), steps, step);
        N.SendingFailedLater(net.core.device, mid, store.versions, |before|, |before|, unresolved, Handle(), W.TextId(app),
                             N.Taken(step), steps[|old(steps)|..], r.error);
      }
    }

    /** Sends an application's text outside the history, under an id claimed for it. */
    method SendText(app: C.AppId, body: Bytes) returns (r: Result<SendOutcome, ChatError>)
      requires Valid()
      modifies this`chat, this`chats, this`taken, this`steps, this`refusals, store, net.core
      ensures Valid() && old(refusals) <= refusals && Grows(old(store.versions), old(chats), old(taken), old(steps))
      ensures !(1 <= |app| <= MAX_APP_ID_LEN) ==> r == Err(InvalidText) && unchanged(this) && unchanged(store)
      ensures r.Ok? ==> TextSent(Now(), |old(chats)|, Handle(), peer, app, r.value)
      ensures r.Err? ==>
                match r.error
                case InvalidText => !(1 <= |app| <= MAX_APP_ID_LEN)
                case TakenByHistory => exists at :: |old(chats)| <= at < |chats| && app in chats[at].outgoing
                case ChatStore => refusals > old(refusals)
                case FromMessenger(x) =>
                  N.SendingFailed(net.core.device, store.versions, |old(chats)|, old(net.core.unresolved), Handle(), W.TextId(app),
                                steps[|old(steps)|..], x)
                case _ => false
    {
      hide Obedient, C.Apply, Regular, SendsEntry, Told, Justified, N.SendingFailed;
      if !(1 <= |app| <= MAX_APP_ID_LEN) {
        return Err(InvalidText);
      }
      var claimed;
      ghost var at;
      claimed, at := Transact(C.Claim(app));
      ClaimTook(net.core.device, Handle(), peer, store.versions, chats, at, app);
      Log(ChatStep(at, C.Claim(app)));
      if claimed.Err? {
        return Err(claimed.error);
      }
      if app !in chat.claims {
        NotClaimed(chats[at], app);
        return Err(TakenByHistory);
      }
      ghost var was := Now();
      var outcome;
      ghost var k;
      outcome, k := SendUnder(app, body, |chats| - 1);
      if outcome.Err? {
        N.SendingFailedLater(net.core.device, store.versions, store.versions, |was.chats|, |old(chats)|,
                             old(net.core.unresolved), Handle(),
                             W.TextId(app), steps[|old(steps)|..], steps[|old(steps)|..], outcome.error);
        return Err(FromMessenger(outcome.error));
      }
      assert ClaimedAt(Now(), |old(chats)|, app, at) by {
        assert was.chats[at] == chats[at] && was.chats[at + 1] == chats[at + 1];
      }
      ToldLater(Now(), Now(), |was.chats|, |old(chats)|, Handle(), peer, app, outcome.value, k);
      return Ok(outcome.value);
    }

    // ── Bringing the history up to date ──────────────────────────────────────

    /** A queued entry: its text is sent, and the entry advanced to what the send
        came to. */
    method SendQueued(number: nat, e: C.Entry, ghost j: nat) returns (r: Result<(), ChatError>)
      requires Valid() && EntryAt(Now(), 0, j, number, e) && e.outgoing && e.state.Queued?
      modifies this`chat, this`chats, this`taken, this`steps, this`refusals, store, net.core
      ensures Valid() && old(refusals) <= refusals && Grows(old(store.versions), old(chats), old(taken), old(steps))
      ensures r.Ok? ==> Sends(Now(), |old(chats)|, Handle(), peer, number, e)
      ensures r.Ok? ==> net.core.unresolved == old(net.core.unresolved)
      ensures r.Err? ==> Troubled(|old(chats)|, old(net.core.unresolved), |old(steps)|, old(refusals), r.error)
    {
      hide Obedient, C.Apply, Regular, SendsEntry, Told, Justified, Reason, C.Consistent, N.SendingFailed, Troubled,
           MessengerTrouble, ReadTroubled;
      EntryIsSendable(store.versions, chats, Handle(), peer, j, number, e);
      ghost var (was, from, unresolved, done, refused) := (Now(), |chats|, net.core.unresolved, |steps|, refusals);
      var outcome;
      ghost var k;
      outcome, k := SendUnder(e.app, e.text, j);
      if outcome.Err? {
        TextTroubles(net.core.device, store.versions, from, Handle(), peer, unresolved, steps[done..], e.app, outcome.error);
        CallTroubled(from, unresolved, done, refused, outcome.error);
        return Err(FromMessenger(outcome.error));
      }
      var told := CameTo(outcome.value).value;
      ghost var mid := Now();
      assert mid.chats[j] == was.chats[j];
      ghost var at;
      r, at := Advance(number, told.0, Some(told.1), j);
      SentAdvances(net.core.device, Handle(), peer, mid.versions, mid.chats, store.versions, chats, at, number, e, outcome.value, j, k);
      Log(ChatStep(at, C.Advance(number, told.0, Some(told.1))));
      if r.Ok? {
        SendCame(mid, Now(), |mid.chats|, from, Handle(), peer, number, e, outcome.value, at, k);
      } else {
        ReadsTroubled(|mid.chats|, from, unresolved, done, refused, refused, r.error);
      }
    }

    /** An entry in flight: the relay may have taken its message, and of one that
        left the outbox the send record says why; anything else changes nothing. */
    method CompareRecord(number: nat, e: C.Entry, pending: set<MessageId>, ghost j: nat) returns (r: Result<(), ChatError>)
      requires Valid() && EntryAt(Now(), 0, j, number, e) && e.outgoing && InFlight(e)
      modifies this`chat, this`chats, this`taken, this`refusals, store
      ensures Valid() && old(refusals) <= refusals && Grows(old(store.versions), old(chats), old(taken), steps)
      ensures r.Ok? ==> Compared(Now(), |old(chats)|, peer, number, e, pending, net.lastSent.Keys)
      ensures r.Err? ==> Troubled(|old(chats)|, old(net.core.unresolved), |old(steps)|, old(refusals), r.error)
      ensures r.Err? ==> r.error != FromMessenger(NoSession)
    {
      hide Obedient, Reason, ChatTook, C.Apply, Troubled, PriorUnread, Advances, MessengerTrouble, MC.PriorError, ReadTroubled;
      ghost var (unresolved, done, refused) := (net.core.unresolved, |steps|, refusals);
      if e.id.Some? && e.id.value in pending {
        if !e.state.Pending? || e.id.value !in net.lastSent {
          return Ok(());
        }
        RelayTookIt(peer, store.versions[j], e);
        r := AdvanceFor(number, e, C.EntryState.Transmitted, j, j);
        return;
      }
      ghost var (was, from) := (Now(), |chats|);
      var prior := net.core.ReadPriorSend(store, peer, W.TextId(e.app));
      ghost var (k, c) := (|store.versions| - 1, store.contents);
      Follow(was.versions);
      if prior.Err? {
        assert store.versions[k] == c;
        PriorTroubles(net.core.device, store.versions, from, Handle(), peer, unresolved, steps[done..], e.app, k, prior.error);
        CallTroubled(from, unresolved, done, refused, prior.error);
        return Err(FromMessenger(prior.error));
      }
      assert store.versions[k] == c && chats[j] == was.chats[j];
      ghost var mid := Now();
      var state := RecordTells(e, prior.value);
      if state.None? {
        NothingTold(mid, from, peer, number, e, prior.value, k);
        return Ok(());
      }
      RecordSays(peer, c, e, state.value);
      r := AdvanceFor(number, e, state.value, j, k);
      if r.Ok? {
        assert store.versions[k] == c;
        ComparedSo(Now(), |mid.chats|, from, peer, number, e, prior.value, k);
      } else {
        StillTroubled(|mid.chats|, from, unresolved, done, done, refused, refused, r.error);
      }
    }

    /** Advances an entry, as read at `j`, for what was read at `k`. */
    method AdvanceFor(number: nat, e: C.Entry, state: C.EntryState, ghost j: nat, ghost k: nat) returns (r: Result<(), ChatError>)
      requires Valid() && EntryAt(Now(), 0, j, number, e) && j <= k < |chats| && Reason(peer, store.versions[k], e, state, None)
      modifies this`chat, this`chats, this`taken, this`refusals, store
      ensures Valid() && old(refusals) <= refusals && Grows(old(store.versions), old(chats), old(taken), steps)
      ensures r.Ok? ==> Advances(Now(), |old(chats)|, number, state, None)
      ensures r.Err? ==> Troubled(|old(chats)|, old(net.core.unresolved), |old(steps)|, old(refusals), r.error)
      ensures r.Err? ==> !r.error.FromMessenger?
    {
      hide Obedient, C.Apply, Justified, Reason, ChatTook, Troubled, MessengerTrouble, ReadTroubled;
      ghost var (was, refused) := (Now(), refusals);
      ghost var at;
      r, at := Advance(number, state, None, j);
      EntryAdvances(net.core.device, Handle(), peer, was.versions, was.chats, store.versions, chats, at, number, e, state, j, k);
      Log(ChatStep(at, C.Advance(number, state, None)));
      if r.Err? {
        ReadsTroubled(|was.chats|, |was.chats|, net.core.unresolved, |steps|, refused, refused, r.error);
      }
    }

    /** Marks a received message read; `k` is when it was. */
    method MarkRead(id: MessageId) returns (r: Result<(), ChatError>, ghost k: nat)
      requires Valid()
      modifies this`chat, this`chats, this`steps, store
      ensures Valid() && old(refusals) <= refusals && Grows(old(store.versions), old(chats), taken, old(steps)) && taken == old(taken)
      ensures r.Ok? ==> |old(chats)| <= k + 1 && MarkedAt(Now(), Handle(), id, k)
      ensures r.Err? ==> Troubled(|old(chats)|, old(net.core.unresolved), |old(steps)|, old(refusals), r.error)
    {
      hide Obedient, HandleShowed, Took, MC.UpkeepFailed, Troubled, MessengerTrouble, UpkeepFails;
      var fault: Fault := *;
      ghost var before := store.versions;
      var marked;
      ghost var step;
      marked, step := net.core.AcknowledgeIncoming(store, Handle(), id, fault);
      ghost var mid := store.versions;
      k := |mid| - 1;
      Follow(before);
      if step.Some? {
        StepObeys(net.core.device, before, mid, Now(), Handle(), peer, step.value);
        LogStep(step.value);
      }
      if marked.Err? {
        LoggedSince(old(steps), steps, step);
        UpkeepTroubles(net.core.device, MC.UpkeepAckIn, mid, store.versions, |before|, Handle(), peer, net.core.unresolved,
                       steps[|old(steps)|..], id, step, marked.error);
        CallTroubled(|before|, net.core.unresolved, |old(steps)|, refusals, marked.error);
        return Err(FromMessenger(marked.error)), k;
      }
      MarkedNow(mid, Now(), Handle(), id);
      return Ok(()), k;
    }

    /** One received text: into the history, then marked read. */
    method RecordText(ghost read: seq<Contents>, ghost owner: Identity, m: IncomingMessage) returns (r: Result<(), ChatError>)
      requires Valid() && m.plaintext.Text?
      requires read <= store.versions && HandleShowed(read, Handle(), owner) && P.ReadIncoming(read, owner, m)
      modifies this`chat, this`chats, this`taken, this`steps, this`refusals, store
      ensures Valid() && old(refusals) <= refusals && Grows(old(store.versions), old(chats), old(taken), old(steps))
      ensures r.Ok? ==> Taken(Now(), |old(chats)|, Handle(), m)
      ensures r.Err? ==> Troubled(|old(chats)|, old(net.core.unresolved), |old(steps)|, old(refusals), r.error)
    {
      hide Obedient, C.Apply, Justified, ChatTook, HandleShowed, P.ReadIncoming, MarkedAt, Troubled, MessengerTrouble, ReadTroubled;
      ghost var (from, done, refused) := (|chats|, |steps|, refusals);
      var recorded;
      ghost var at;
      recorded, at := Transact(C.RecordIncoming(m.id, m.plaintext.body));
      IncomingTook(net.core.device, Handle(), peer, read, store.versions, chats, at, owner, m);
      Log(ChatStep(at, C.RecordIncoming(m.id, m.plaintext.body)));
      if recorded.Err? {
        CommitTroubled(from, net.core.unresolved, done, refused);
        return recorded;
      }
      ghost var was := Now();
      ghost var k;
      r, k := MarkRead(m.id);
      if r.Ok? {
        assert was.chats[at] == chats[at] && was.chats[at + 1] == chats[at + 1];
        assert TakenAt(Now(), from, Handle(), m, at, k);
      } else {
        StillTroubled(|was.chats|, from, net.core.unresolved, done, done, refused, refused, r.error);
      }
    }

    /** Received texts: into the history, once each, then marked read. */
    method RecordInbox() returns (r: Result<(), ChatError>)
      requires Valid()
      modifies this`chat, this`chats, this`taken, this`steps, this`refusals, store
      ensures Valid() && old(refusals) <= refusals && Grows(old(store.versions), old(chats), old(taken), old(steps))
      ensures r.Ok? ==> InboxTaken(Now(), |old(chats)|, Handle())
      ensures r.Err? ==> Troubled(|old(chats)|, old(net.core.unresolved), |old(steps)|, old(refusals), r.error)
    {
      hide Obedient, P.GatheredIncoming, HandleShowed, P.ReadIncoming, Taken, Troubled, MessengerTrouble, MC.InboxListFailed;
      ghost var (was, from, done, refused) := (Now(), |chats|, |steps|, refusals);
      var pending;
      ghost var owner, listed;
      pending, owner, listed := P.ListIncoming(net.core, store, Handle());
      ghost var read := store.versions;
      Follow(was.versions);
      if pending.Err? {
        InboxTroubles(net.core.device, read, store.versions, from, Handle(), peer, net.core.unresolved, steps[done..], pending.error);
        CallTroubled(from, net.core.unresolved, done, refused, pending.error);
        return Err(FromMessenger(pending.error));
      }
      for n := 0 to |pending.value|
        invariant Valid() && old(refusals) <= refusals && Grows(was.versions, was.chats, old(taken), old(steps))
        invariant read <= store.versions
        invariant forall i :: 0 <= i < n && pending.value[i].plaintext.Text? ==> Taken(Now(), from, Handle(), pending.value[i])
      {
        if pending.value[n].plaintext.Text? {
          ghost var (mid, mark, count) := (Now(), |steps|, refusals);
          GatheredMember(read, owner, P.InboxIds(read[listed].Keys, owner), pending.value, pending.value[n]);
          r := RecordText(read, owner, pending.value[n]);
          if r.Err? {
            StillTroubled(|mid.chats|, from, net.core.unresolved, mark, done, count, refused, r.error);
            return r;
          }
          ListTakenLater(mid, Now(), from, Handle(), pending.value[..n]);
          TakenLater(Now(), Now(), |mid.chats|, from, Handle(), pending.value[n]);
        }
      }
      AllTaken(read, Now(), from, Handle(), owner, listed, pending.value);
      return Ok(());
    }

    /** One entry, as a refresh read it. */
    method UpdateEntry(number: nat, e: C.Entry, canSend: bool, pending: set<MessageId>, ghost j: nat) returns (r: Result<(), ChatError>)
      requires Valid() && EntryAt(Now(), 0, j, number, e)
      modifies this`chat, this`chats, this`taken, this`steps, this`refusals, store, net.core
      ensures Valid() && old(refusals) <= refusals && Grows(old(store.versions), old(chats), old(taken), old(steps))
      ensures r.Ok? ==> Handled(Now(), |old(chats)|, Handle(), peer, number, e, Known(canSend, pending, net.lastSent.Keys))
      ensures r.Ok? ==> net.core.unresolved == old(net.core.unresolved)
      ensures r.Err? ==> Troubled(|old(chats)|, old(net.core.unresolved), |old(steps)|, old(refusals), r.error)
      ensures r.Err? && !canSend ==> r.error != FromMessenger(NoSession)
    {
      hide Obedient, Sends, Compared, Troubled, MessengerTrouble;
      if e.outgoing && e.state.Queued? && canSend {
        r := SendQueued(number, e, j);
      } else if e.outgoing && InFlight(e) {
        r := CompareRecord(number, e, pending, j);
      } else {
        r := Ok(());
      }
    }

    method UpdateEntries(canSend: bool, pending: set<MessageId>) returns (r: Result<(), ChatError>)
      requires Valid()
      modifies this`chat, this`chats, this`taken, this`steps, this`refusals, store, net.core
      ensures Valid() && old(refusals) <= refusals && Grows(old(store.versions), old(chats), old(taken), old(steps))
      ensures r.Ok? ==> AllHandled(Now(), |old(chats)|, Handle(), peer, Known(canSend, pending, net.lastSent.Keys))
      ensures r.Ok? ==> net.core.unresolved == old(net.core.unresolved)
      ensures r.Err? ==> Troubled(|old(chats)|, old(net.core.unresolved), |old(steps)|, old(refusals), r.error)
      ensures r.Err? && !canSend ==> r.error != FromMessenger(NoSession)
    {
      hide Obedient, Handled, Troubled, MessengerTrouble, EntryMissing;
      ghost var (from, known) := (|chats|, Known(canSend, pending, net.lastSent.Keys));
      ghost var (unresolved, done, refused) := (net.core.unresolved, |steps|, refusals);
      var entries;
      ghost var j, js;
      entries, j, js := ReadEntries();
      if entries.Err? {
        ReadIsMissing(from, refused, entries.error);
        ReadsTroubled(from, from, unresolved, done, refused, refused, entries.error);
        return Err(entries.error);
      }
      ghost var read := Now();
      for n := 0 to |entries.value|
        invariant Valid() && old(refusals) <= refusals
        invariant Grows(read.versions, read.chats, old(taken), old(steps)) && Grows(old(store.versions), old(chats), old(taken), old(steps))
        invariant net.core.unresolved == unresolved
        invariant forall i :: 1 <= i <= n ==> EntryHandled(Now(), from, Handle(), peer, i, known)
      {
        ghost var (mid, mark, count) := (Now(), |steps|, refusals);
        assert EntryAt(read, j, js[n], n + 1, entries.value[n]);
        assert EntryAt(mid, 0, js[n], n + 1, entries.value[n]);
        r := UpdateEntry(n + 1, entries.value[n], canSend, pending, js[n]);
        if r.Err? {
          StillTroubled(|mid.chats|, from, unresolved, mark, done, count, refused, r.error);
          return r;
        }
        EntriesHandledLater(mid, Now(), from, Handle(), peer, known, n);
        HandledLater(Now(), Now(), |mid.chats|, from, Handle(), peer, n + 1, entries.value[n], known);
        assert EntryAt(Now(), from, js[n], n + 1, entries.value[n]);
      }
      EveryEntryHandled(Now(), from, Handle(), peer, known, j, |entries.value|);
      return Ok(());
    }

    /** The messages still in the peer's outbox. */
    method ReadPending() returns (r: Result<set<MessageId>, ChatError>)
      requires Valid()
      modifies this`chat, this`chats, store
      ensures Valid() && old(refusals) <= refusals && Grows(old(store.versions), old(chats), taken, steps)
      ensures r.Ok? ==> OutboxRead(Now(), |old(chats)|, Handle(), r.value)
      ensures r.Err? ==> Troubled(|old(chats)|, old(net.core.unresolved), |old(steps)|, old(refusals), r.error)
    {
      hide Obedient, P.GatheredOutgoing, HandleShowed, Troubled, MessengerTrouble, MC.OutboxListFailed;
      ghost var before := store.versions;
      var pending;
      ghost var owner, listed;
      pending, owner, listed := P.ListOutgoing(net.core, store, Handle());
      ghost var mid := store.versions;
      Follow(before);
      if pending.Err? {
        OutboxTroubles(net.core.device, mid, store.versions, |before|, Handle(), peer, net.core.unresolved,
                       steps[|steps|..], pending.error);
        CallTroubled(|before|, net.core.unresolved, |steps|, refusals, pending.error);
        return Err(FromMessenger(pending.error));
      }
      var ids := set m | m in pending.value :: m.id;
      OutboxListedSo(mid, Now(), |before|, Handle(), ids, owner, listed, pending.value);
      return Ok(ids);
    }

    /** Whether a session with the peer is stored. */
    method HasSession() returns (r: Result<bool, ChatError>)
      requires Valid()
      modifies this`chat, this`chats, store
      ensures Valid() && old(refusals) <= refusals && Grows(old(store.versions), old(chats), taken, steps)
      ensures r == Ok(false) ==> SessionAbsent(Now(), |old(chats)|, Handle())
      ensures r == Ok(true) ==> MC.SlotTaken(store.versions, |old(chats)|, Handle())
      ensures r.Err? ==> r.error != FromMessenger(NoSession)
      ensures r.Err? ==> Troubled(|old(chats)|, old(net.core.unresolved), |old(steps)|, old(refusals), r.error)
    {
      hide Obedient, Troubled, MessengerTrouble, MC.HandleError, MC.SlotTaken;
      ghost var before := store.versions;
      var owner := net.core.RequirePeer(store, Handle());
      ghost var (mid, k) := (store.versions, |store.versions| - 1);
      Follow(before);
      assert store.versions[k] == mid[k];
      if owner.Ok? {
        SlotIsTaken(store.versions, |before|, Handle(), owner.value, k);
        return Ok(true);
      }
      if owner.error != NoSession {
        HandleTroubles(net.core.device, store.versions, |before|, Handle(), peer, net.core.unresolved, steps[|steps|..], k, owner.error);
        CallTroubled(|before|, net.core.unresolved, |steps|, refusals, owner.error);
        return Err(FromMessenger(owner.error));
      }
      assert NoSessionAt(Now(), |before|, Handle(), k);
      return Ok(false);
    }

    /** Whether it can send: one an older build left behind cannot. */
    method CanSend() returns (r: Result<bool, ChatError>)
      requires Valid()
      modifies this`chat, this`chats, store
      ensures Valid() && old(refusals) <= refusals && Grows(old(store.versions), old(chats), taken, steps)
      ensures r.Ok? ==>
                if r.value then N.NoLegacyShown(store.versions, |old(chats)|, net.core.device.our, Handle())
                else N.LegacyShown(store.versions, |old(chats)|, net.core.device.our, Handle())
      ensures r.Err? ==> Troubled(|old(chats)|, old(net.core.unresolved), |old(steps)|, old(refusals), r.error)
    {
      hide Obedient, N.LegacyShown, N.NoLegacyShown, Troubled, MessengerTrouble, MC.LoadFailed;
      ghost var before := store.versions;
      var legacy := net.IsLegacy(store, Handle());
      ghost var mid := store.versions;
      Follow(before);
      N.LegacyLater(mid, store.versions, |before|, |before|, net.core.device.our, Handle());
      if legacy.Err? {
        LoadTroubles(net.core.device, mid, store.versions, |before|, Handle(), peer, net.core.unresolved, steps[|steps|..], legacy.error);
        CallTroubled(|before|, net.core.unresolved, |steps|, refusals, legacy.error);
        return Err(FromMessenger(legacy.error));
      }
      return Ok(!legacy.value);
    }

    /** With a session: what it received first, then what became of every entry. */
    method CatchUp() returns (r: Result<(), ChatError>)
      requires Valid()
      modifies this`chat, this`chats, this`taken, this`steps, this`refusals, store, net.core
      ensures Valid() && old(refusals) <= refusals && Grows(old(store.versions), old(chats), old(taken), old(steps))
      ensures r.Ok? ==> Refreshed(Now(), |old(chats)|, net.core.device.our, Handle(), peer, net.lastSent.Keys)
      ensures r.Ok? ==> net.core.unresolved == old(net.core.unresolved)
      ensures r.Err? ==> Troubled(|old(chats)|, old(net.core.unresolved), |old(steps)|, old(refusals), r.error)
    {
      hide Obedient, AllHandled, InboxTaken, OutboxRead, SessionAbsent, N.LegacyShown, N.NoLegacyShown, Troubled, MessengerTrouble;
      ghost var (from, transmitted) := (|chats|, net.lastSent.Keys);
      ghost var (unresolved, done, refused) := (net.core.unresolved, |steps|, refusals);
      r := RecordInbox();
      if r.Err? {
        return r;
      }
      ghost var (recorded, mark, count) := (Now(), |steps|, refusals);
      var pending := ReadPending();
      if pending.Err? {
        StillTroubled(|recorded.chats|, from, unresolved, mark, done, count, refused, pending.error);
        return Err(pending.error);
      }
      ghost var listed := Now();
      var canSend := CanSend();
      if canSend.Err? {
        StillTroubled(|listed.chats|, from, unresolved, mark, done, count, refused, canSend.error);
        return Err(canSend.error);
      }
      ghost var asked := Now();
      r := UpdateEntries(canSend.value, pending.value);
      if r.Ok? {
        ghost var known := Known(canSend.value, pending.value, transmitted);
        InboxTakenLater(recorded, Now(), from, from, Handle());
        OutboxReadLater(listed, Now(), |recorded.chats|, from, Handle(), pending.value);
        N.LegacyLater(asked.versions, store.versions, |listed.chats|, from, net.core.device.our, Handle());
        AllHandledLater(Now(), Now(), |asked.chats|, from, Handle(), peer, known);
        assert RefreshedOn(Now(), from, net.core.device.our, Handle(), peer, known);
      } else {
        StillTroubled(|asked.chats|, from, unresolved, mark, done, count, refused, r.error);
      }
    }

    /** Brings the history up to date with the messenger's records. */
    method Refresh() returns (r: Result<(), ChatError>)
      requires Valid()
      modifies this`chat, this`chats, this`taken, this`steps, this`refusals, store, net.core
      ensures Valid() && old(refusals) <= refusals && Grows(old(store.versions), old(chats), old(taken), old(steps))
      ensures r.Ok? ==> Refreshed(Now(), |old(chats)|, net.core.device.our, Handle(), peer, net.lastSent.Keys)
      ensures r.Ok? ==> net.core.unresolved == old(net.core.unresolved)
      ensures r.Err? ==> Troubled(|old(chats)|, old(net.core.unresolved), |old(steps)|, old(refusals), r.error)
      ensures r.Err? ==> SessionLost(store.versions, |old(chats)|, Handle(), r.error)
    {
      hide Obedient, AllHandled, InboxTaken, OutboxRead, SessionAbsent, N.LegacyShown, N.NoLegacyShown, RefreshedOn, Troubled,
           MessengerTrouble, MC.SlotTaken;
      ghost var (from, transmitted) := (|chats|, net.lastSent.Keys);
      ghost var (unresolved, done, refused) := (net.core.unresolved, |steps|, refusals);
      var has := HasSession();
      if has.Err? {
        return Err(has.error);
      }
      ghost var seen := Now();
      if has.value {
        r := CatchUp();
        if r.Ok? {
          RefreshedLater(Now(), Now(), |seen.chats|, from, net.core.device.our, Handle(), peer, transmitted);
        } else {
          StillTroubled(|seen.chats|, from, unresolved, done, done, refused, refused, r.error);
          MC.SlotTakenLater(seen.versions, store.versions, from, from, Handle());
        }
      } else {
        r := UpdateEntries(false, {});
        if r.Ok? {
          RefreshedWithout(seen, Now(), |seen.chats|, from, net.core.device.our, Handle(), peer, transmitted);
        } else {
          StillTroubled(|seen.chats|, from, unresolved, done, done, refused, refused, r.error);
        }
      }
    }

    /** Records the text under the application's id for it, once. */
    method QueueText(app: C.AppId, body: Bytes) returns (r: Result<nat, ChatError>)
      requires Valid()
      modifies this`chat, this`chats, this`taken, this`refusals, store
      ensures Valid() && old(refusals) <= refusals && Grows(old(store.versions), old(chats), old(taken), steps)
      ensures r.Ok? ==> QueuedAs(Now(), |old(chats)|, app, body, r.value)
      ensures r.Err? ==>
                if r.error.TakenBySendText? then SendTextHas(Now(), |old(chats)|, peer, app)
                else Troubled(|old(chats)|, net.core.unresolved, |steps|, old(refusals), r.error) && r.error != FromMessenger(NoSession)
    {
      hide Obedient, C.Apply, Justified, Status, ChatTook, Troubled, MessengerTrouble, PriorUnread, SendTextHas;
      ghost var refused := refusals;
      ghost var before := store.versions;
      var prior := net.core.ReadPriorSend(store, peer, W.TextId(app));
      ghost var (k, c) := (|store.versions| - 1, store.contents);
      Follow(before);
      assert store.versions[k] == c;
      if prior.Err? {
        PriorTroubles(net.core.device, store.versions, |before|, Handle(), peer, net.core.unresolved, steps[|steps|..], app,
                      k, prior.error);
        CallTroubled(|before|, net.core.unresolved, |steps|, refused, prior.error);
        return Err(FromMessenger(prior.error));
      }
      var sentRaw := prior.value.Some?;
      var queued;
      ghost var at;
      queued, at := Transact(C.Queue(app, body, sentRaw));
      QueueTook(net.core.device, Handle(), peer, store.versions, chats, at, k, c, app, Payload.Text(body), sentRaw);
      Log(ChatStep(at, C.Queue(app, body, sentRaw)));
      if queued.Err? {
        CommitTroubled(|before|, net.core.unresolved, |steps|, refused);
        return Err(queued.error);
      }
      if app !in chat.outgoing {
        assert store.versions[k] == c;
        NotQueued(Now(), |before|, peer, app, body, sentRaw, at, k);
        return Err(TakenBySendText);
      }
      assert QueuedAt(Now(), |old(chats)|, app, body, at, sentRaw);
      return Ok(chat.outgoing[app]);
    }

    /** Records the text, brings the history up to date, which sends it if a session
        can, and answers with its entry. */
    method ChatSend(app: C.AppId, body: Bytes) returns (r: Result<C.Entry, ChatError>)
      requires Valid()
      modifies this`chat, this`chats, this`taken, this`steps, this`refusals, store, net.core
      ensures Valid() && old(refusals) <= refusals && Grows(old(store.versions), old(chats), old(taken), old(steps))
      ensures !(1 <= |app| <= MAX_APP_ID_LEN) || !(1 <= |body| <= MAX_TEXT_LEN) ==>
                r == Err(InvalidText) && unchanged(this) && unchanged(store)
      ensures r.Ok? ==> ChatSent(Now(), |old(chats)|, net.core.device.our, Handle(), peer, app, body, r.value, net.lastSent.Keys)
      ensures r.Err? ==>
                match r.error
                case InvalidText => !(1 <= |app| <= MAX_APP_ID_LEN) || !(1 <= |body| <= MAX_TEXT_LEN)
                case TakenBySendText => SendTextHas(Now(), |old(chats)|, peer, app)
                case e =>
                  && Troubled(|old(chats)|, old(net.core.unresolved), |old(steps)|, old(refusals), e)
                  && SessionLost(store.versions, |old(chats)|, Handle(), e)
    {
      hide Obedient, Refreshed, QueuedAs, Troubled, MessengerTrouble, SendTextHas, MC.SlotTaken, EntryMissing, Counted;
      if !(1 <= |app| <= MAX_APP_ID_LEN) || !(1 <= |body| <= MAX_TEXT_LEN) {
        return Err(InvalidText);
      }
      ghost var (from, unresolved, done, refused) := (|chats|, net.core.unresolved, |steps|, refusals);
      var number := QueueText(app, body);
      if number.Err? {
        if !number.error.TakenBySendText? {
          NotTaken(from, unresolved, done, refused, number.error);
        }
        return Err(number.error);
      }
      ghost var (was, count) := (Now(), refusals);
      var refreshed := Refresh();
      if refreshed.Err? {
        StillTroubled(|was.chats|, from, unresolved, done, done, count, refused, refreshed.error);
        LostSince(store.versions, |was.chats|, from, Handle(), refreshed.error);
        NotTaken(|was.chats|, unresolved, done, count, refreshed.error);
        return Err(refreshed.error);
      }
      ghost var (mid, last) := (Now(), refusals);
      ghost var i := QueuedIsCounted(mid, was, from, app, body, number.value);
      ghost var j;
      r, j := ReadEntry(number.value, i);
      if r.Ok? {
        RefreshedLater(mid, Now(), |was.chats|, from, net.core.device.our, Handle(), peer, net.lastSent.Keys);
        QueuedLater(was, Now(), from, app, body, number.value);
        assert EntryAt(Now(), from, j, number.value, r.value);
      } else {
        ReadIsMissing(|mid.chats|, last, r.error);
        ReadsTroubled(|mid.chats|, from, unresolved, done, last, refused, r.error);
      }
    }

    // ── Resolving a session conflict ─────────────────────────────────────────

    /** Whether the peer authenticated a message on the session; if not, `k` is when
        it was found unconfirmed. */
    method Confirmed() returns (r: Result<bool, ChatError>, ghost k: nat)
      requires Valid()
      modifies this`chat, this`chats, store
      ensures Valid() && old(refusals) <= refusals && Grows(old(store.versions), old(chats), taken, steps)
      ensures r == Ok(true) ==> SessionConfirmed(Now(), |old(chats)|, Handle())
      ensures r == Ok(false) ==>
                && |old(chats)| <= k + 1 && k < |chats|
                && (Regular(store.versions, chats, Handle(), peer) ==> UnconfirmedAt(store.versions[k], peer))
      ensures r.Err? ==> Troubled(|old(chats)|, old(net.core.unresolved), |old(steps)|, old(refusals), r.error)
    {
      hide Obedient, Regular, HandleShowed, Troubled, MessengerTrouble, MC.LoadFailed, MC.Shown;
      ghost var before := store.versions;
      var session;
      ghost var shown;
      session, shown := net.core.LoadSession(store, Handle());
      k := |store.versions| - 1;
      ghost var mid := store.versions;
      Follow(before);
      if session.Err? {
        LoadTroubles(net.core.device, mid, store.versions, |before|, Handle(), peer, net.core.unresolved, steps[|steps|..],
                     session.error);
        CallTroubled(|before|, net.core.unresolved, |steps|, refusals, session.error);
        return Err(FromMessenger(session.error)), k;
      }
      if !Established(session.value.State()) {
        FoundUnconfirmed(mid, store.versions, chats, Handle(), peer, shown, session.value.State());
        return Ok(false), k;
      }
      FoundConfirmed(mid, Now(), |before|, Handle(), shown, session.value.State());
      return Ok(true), k;
    }

    /** Gives up one entry in flight. */
    method GiveUp(number: nat, e: C.Entry, ghost j: nat, ghost k: nat) returns (r: Result<(), ChatError>)
      requires Valid() && EntryAt(Now(), 0, j, number, e) && k <= j && net.core.device.our > peer
      requires Regular(store.versions, chats, Handle(), peer) ==> UnconfirmedAt(store.versions[k], peer)
      modifies this`chat, this`chats, this`taken, this`refusals, store
      ensures Valid() && old(refusals) <= refusals && Grows(old(store.versions), old(chats), old(taken), steps)
      ensures r.Ok? && e.outgoing && InFlight(e) ==> Advances(Now(), |old(chats)|, number, C.EntryState.NotDelivered, None)
      ensures r.Err? ==> ReadTroubled(|old(chats)|, old(refusals), r.error)
    {
      hide Obedient, C.Apply, Regular, UnconfirmedAt, ChatTook, ReadTroubled;
      if !e.outgoing || !InFlight(e) {
        return Ok(());
      }
      ghost var was := Now();
      ghost var at;
      r, at := Advance(number, C.EntryState.NotDelivered, None, j);
      assert chats[j] == was.chats[j];
      GivenUpTook(net.core.device, Handle(), peer, was.versions, was.chats, store.versions, chats, at, number, e, j, k);
      Log(ChatStep(at, C.Advance(number, C.EntryState.NotDelivered, None)));
    }

    /** The pass over the history: before anything leaves the outbox. */
    method GiveUpAll(ghost k: nat) returns (r: Result<(), ChatError>)
      requires Valid() && k < |chats| && net.core.device.our > peer
      requires Regular(store.versions, chats, Handle(), peer) ==> UnconfirmedAt(store.versions[k], peer)
      modifies this`chat, this`chats, this`taken, this`refusals, store
      ensures Valid() && old(refusals) <= refusals && Grows(old(store.versions), old(chats), old(taken), steps)
      ensures r.Ok? ==> AllGivenUp(Now(), |old(chats)|)
      ensures r.Err? ==> Troubled(|old(chats)|, old(net.core.unresolved), |old(steps)|, old(refusals), r.error)
    {
      hide Obedient, Regular, UnconfirmedAt, Advances, Troubled, MessengerTrouble, ReadTroubled, EntryMissing;
      ghost var (was, from, unresolved, refused) := (Now(), |chats|, net.core.unresolved, refusals);
      var entries;
      ghost var j, js;
      entries, j, js := ReadEntries();
      StillUnconfirmed(was.versions, was.chats, store.versions, chats, Handle(), peer, k);
      if entries.Err? {
        ReadIsMissing(from, refused, entries.error);
        ReadsTroubled(from, from, unresolved, |steps|, refused, refused, entries.error);
        return Err(entries.error);
      }
      ghost var read := Now();
      for n := 0 to |entries.value|
        invariant Valid() && old(refusals) <= refusals
        invariant Grows(read.versions, read.chats, old(taken), steps) && Grows(was.versions, was.chats, old(taken), steps)
        invariant Regular(store.versions, chats, Handle(), peer) ==> UnconfirmedAt(store.versions[k], peer)
        invariant forall i :: 1 <= i <= n ==> EntryGivenUp(Now(), from, i)
      {
        ghost var (mid, count) := (Now(), refusals);
        assert EntryAt(read, j, js[n], n + 1, entries.value[n]);
        assert EntryAt(mid, 0, js[n], n + 1, entries.value[n]);
        r := GiveUp(n + 1, entries.value[n], js[n], k);
        StillUnconfirmed(mid.versions, mid.chats, store.versions, chats, Handle(), peer, k);
        if r.Err? {
          ReadsTroubled(|mid.chats|, from, unresolved, |steps|, count, refused, r.error);
          return r;
        }
        EntriesGivenUpLater(mid, Now(), from, n);
        AdvancesLater(Now(), Now(), |mid.chats|, from, n + 1, C.EntryState.NotDelivered, None);
        assert EntryAt(Now(), from, js[n], n + 1, entries.value[n]);
      }
      EveryEntryGivenUp(Now(), from, j, |entries.value|);
      return Ok(());
    }

    /** Abandons one message. */
    method Abandon(id: MessageId) returns (r: Result<(), ChatError>)
      requires Valid()
      modifies this`chat, this`chats, this`steps, store
      ensures Valid() && old(refusals) <= refusals && Grows(old(store.versions), old(chats), taken, old(steps)) && taken == old(taken)
      ensures r.Ok? ==> Gone(Now(), Handle(), id)
      ensures r.Err? ==> Troubled(|old(chats)|, old(net.core.unresolved), |old(steps)|, old(refusals), r.error)
    {
      hide Obedient, HandleShowed, Took, Gone, Troubled, MessengerTrouble, MC.UpkeepFailed, UpkeepFails;
      ghost var before := store.versions;
      var fault: Fault := *;
      var abandoned;
      ghost var step;
      abandoned, step := net.core.AbandonOutgoing(store, Handle(), id, fault);
      ghost var mid := store.versions;
      Follow(before);
      if step.Some? {
        StepObeys(net.core.device, before, mid, Now(), Handle(), peer, step.value);
        LogStep(step.value);
      }
      if abandoned.Err? {
        LoggedSince(old(steps), steps, step);
        UpkeepTroubles(net.core.device, MC.UpkeepAbandon, mid, store.versions, |before|, Handle(), peer, net.core.unresolved,
                       steps[|old(steps)|..], id, step, abandoned.error);
        CallTroubled(|before|, net.core.unresolved, |old(steps)|, refusals, abandoned.error);
        return Err(FromMessenger(abandoned.error));
      }
      GoneNow(mid, Now(), Handle(), id);
      return Ok(());
    }

    /** Abandons everything pending on the session. */
    method AbandonAll() returns (r: Result<(), ChatError>)
      requires Valid()
      modifies this`chat, this`chats, this`steps, store
      ensures Valid() && old(refusals) <= refusals && Grows(old(store.versions), old(chats), taken, old(steps)) && taken == old(taken)
      ensures r.Ok? ==> OutboxEmptied(Now(), |old(chats)|, Handle())
      ensures r.Err? ==> Troubled(|old(chats)|, old(net.core.unresolved), |old(steps)|, old(refusals), r.error)
    {
      hide Obedient, P.GatheredOutgoing, HandleShowed, Gone, OutboxEmptied, Troubled, MessengerTrouble, MC.OutboxListFailed;
      ghost var (was, from, unresolved, done, refused) := (Now(), |chats|, net.core.unresolved, |steps|, refusals);
      var pending;
      ghost var owner, listed;
      pending, owner, listed := P.ListOutgoing(net.core, store, Handle());
      ghost var read := store.versions;
      Follow(was.versions);
      if pending.Err? {
        OutboxTroubles(net.core.device, read, store.versions, from, Handle(), peer, unresolved, steps[done..], pending.error);
        CallTroubled(from, unresolved, done, refused, pending.error);
        return Err(FromMessenger(pending.error));
      }
      for n := 0 to |pending.value|
        invariant Valid() && old(refusals) <= refusals
        invariant Grows(was.versions, was.chats, taken, old(steps)) && read <= store.versions && taken == old(taken)
        invariant forall i :: 0 <= i < n ==> Gone(Now(), Handle(), pending.value[i].id)
      {
        ghost var (mid, mark) := (Now(), |steps|);
        r := Abandon(pending.value[n].id);
        if r.Err? {
          StillTroubled(|mid.chats|, from, unresolved, mark, done, refusals, refused, r.error);
          return r;
        }
        AllGoneLater(mid, Now(), Handle(), pending.value[..n]);
      }
      AllGone(read, Now(), from, Handle(), owner, listed, pending.value);
      return Ok(());
    }

    /** Removes the session, on which nothing is pending any more. */
    method RemoveOwn() returns (r: Result<(), ChatError>)
      requires Valid()
      modifies this`chat, this`chats, this`steps, store
      ensures Valid() && old(refusals) <= refusals && Grows(old(store.versions), old(chats), taken, old(steps)) && taken == old(taken)
      ensures r.Ok? ==> SessionRemoved(Now(), |old(chats)|, Handle())
      ensures r.Err? ==> Troubled(|old(chats)|, old(net.core.unresolved), |old(steps)|, old(refusals), r.error)
    {
      hide Obedient, Took, Fires, HandleShowed, Troubled, MessengerTrouble, MC.RemoveFailed;
      ghost var before := store.versions;
      var fault: Fault := *;
      var removed;
      ghost var step;
      removed, step := net.core.RemoveSession(store, Handle(), fault);
      ghost var mid := store.versions;
      Follow(before);
      if step.Some? {
        RemovalObeys(net.core.device, before, mid, Now(), Handle(), peer, step.value);
        LogStep(step.value);
      }
      if removed.Err? {
        LoggedSince(old(steps), steps, step);
        RemoveTroubles(net.core.device, mid, store.versions, |before|, Handle(), peer, net.core.unresolved, steps[|old(steps)|..], step,
                       removed.error);
        CallTroubled(|before|, net.core.unresolved, |old(steps)|, refusals, removed.error);
        return Err(FromMessenger(removed.error));
      }
      RemovedNow(mid, Now(), |before|, Handle(), step.value.event.tx.base.peer);
      return Ok(());
    }

    /** Resolves a session conflict on the device whose identity is the greater:
        the texts in flight are given up, then abandoned, and the session removed. */
    method ResolveConflict(conflict: bool) returns (r: Result<(), ChatError>)
      requires Valid()
      modifies this`chat, this`chats, this`taken, this`steps, this`refusals, store
      ensures Valid() && old(refusals) <= refusals && Grows(old(store.versions), old(chats), old(taken), old(steps))
      ensures !conflict ==> r == Err(NoConflict) && unchanged(store) && unchanged(this)
      ensures conflict && net.core.device.our <= peer ==> r == Err(PeerResolves) && unchanged(store) && unchanged(this)
      ensures r.Ok? ==> Resolved(Now(), |old(chats)|, Handle())
      ensures r.Err? ==>
                match r.error
                case NoConflict => !conflict
                case PeerResolves => net.core.device.our <= peer
                case e =>
                  && Troubled(|old(chats)|, net.core.unresolved, |old(steps)|, old(refusals), e)
                  && SessionLost(store.versions, |old(chats)|, Handle(), e)
    {
      hide Obedient, Regular, UnconfirmedAt, SessionAbsent, SessionConfirmed, AllGivenUp, OutboxEmptied, SessionRemoved,
           Troubled, MessengerTrouble, MC.SlotTaken;
      if !conflict {
        return Err(NoConflict);
      }
      if net.core.device.our <= peer {
        return Err(PeerResolves);
      }
      ghost var (from, unresolved, done, refused) := (|chats|, net.core.unresolved, |steps|, refusals);
      var has := HasSession();
      if has.Err? {
        NotTaken(from, unresolved, done, refused, has.error);
        return Err(has.error);
      }
      if !has.value {
        return Ok(());
      }
      ghost var seen := Now();
      var confirmed;
      ghost var k;
      confirmed, k := Confirmed();
      MC.SlotTakenLater(seen.versions, store.versions, from, from, Handle());
      if confirmed.Err? {
        StillTroubled(|seen.chats|, from, unresolved, done, done, refused, refused, confirmed.error);
        NotTaken(from, unresolved, done, refused, confirmed.error);
        return Err(confirmed.error);
      }
      if confirmed.value {
        SessionSeenLater(Now(), Now(), |seen.chats|, from, Handle());
        return Ok(());
      }
      ghost var checked := Now();
      r := ClearOwn(k);
      if r.Ok? {
        AllGivenUpLater(Now(), Now(), |checked.chats|, from);
        OutboxEmptiedLater(Now(), Now(), |checked.chats|, from, Handle());
        SessionRemovedLater(Now(), |checked.chats|, from, Handle());
      } else {
        MC.SlotTakenLater(checked.versions, store.versions, from, from, Handle());
        StillTroubled(|checked.chats|, from, unresolved, done, done, refused, refused, r.error);
        NotTaken(from, unresolved, done, refused, r.error);
      }
    }

    /** Gives up, abandons, removes, in this order: each step repeats safely. */
    method ClearOwn(ghost k: nat) returns (r: Result<(), ChatError>)
      requires Valid() && k < |chats| && net.core.device.our > peer
      requires Regular(store.versions, chats, Handle(), peer) ==> UnconfirmedAt(store.versions[k], peer)
      modifies this`chat, this`chats, this`taken, this`steps, this`refusals, store
      ensures Valid() && old(refusals) <= refusals && Grows(old(store.versions), old(chats), old(taken), old(steps))
      ensures r.Ok? ==>
                && AllGivenUp(Now(), |old(chats)|) && OutboxEmptied(Now(), |old(chats)|, Handle())
                && SessionRemoved(Now(), |old(chats)|, Handle())
      ensures r.Err? ==> Troubled(|old(chats)|, old(net.core.unresolved), |old(steps)|, old(refusals), r.error)
    {
      hide Obedient, Regular, UnconfirmedAt, AllGivenUp, OutboxEmptied, SessionRemoved, Troubled, MessengerTrouble;
      ghost var (from, unresolved, done, refused) := (|chats|, net.core.unresolved, |steps|, refusals);
      r := GiveUpAll(k);
      if r.Err? {
        return r;
      }
      ghost var (marked, count) := (Now(), refusals);
      r := AbandonAll();
      if r.Err? {
        StillTroubled(|marked.chats|, from, unresolved, done, done, count, refused, r.error);
        return r;
      }
      ghost var (abandoned, mark) := (Now(), |steps|);
      r := RemoveOwn();
      if r.Err? {
        StillTroubled(|abandoned.chats|, from, unresolved, mark, done, count, refused, r.error);
      }
      if r.Ok? {
        AllGivenUpLater(marked, Now(), from, from);
        OutboxEmptiedLater(abandoned, Now(), |marked.chats|, from, Handle());
        SessionRemovedLater(Now(), |abandoned.chats|, from, Handle());
      }
    }
  }

  function RecordTells(e: C.Entry, prior: Option<SendOutcome>): Option<C.EntryState> {
    match prior
    case Some(Repeated(Acknowledged(id))) => if e.id == Some(id) then Some(C.EntryState.Delivered) else None
    case Some(Repeated(Abandoned(id))) => if e.id == Some(id) then Some(C.EntryState.NotDelivered) else None
    case _ => None
  }

  /** A send that committed leaves nothing unresolved. */
  lemma SentIsKept(d: Device, before: seq<Contents>, mid: seq<Contents>, s: Step, was: map<nat, MessengerRecovery.Unresolved>,
                   now: map<nat, MessengerRecovery.Unresolved>, r: Result<SendOutcome, MessagingError>)
    requires Took(d, 0, before, mid, s) && s.event.tx.Send? && SendDone(d, was, now, mid[s.at], s.event, r) && r.Ok?
    ensures now == was && r.value.Sent?
  {
    hide Formed, SendDone, After, Reads;
    N.SendKeepsUnresolved(d, was, now, mid[s.at], s.event, r);
    N.SentIsPending(d, before, mid, s, was, now, r);
  }

  lemma LoggedSince(before: seq<Step>, steps: seq<Step>, step: Option<Step>)
    requires steps == before + N.Taken(step)
    ensures forall s :: s in N.Taken(step) ==> s in steps[|before|..]
  {
    assert steps[|before|..] == N.Taken(step);
  }

  lemma NotClaimed(c: C.Chat, app: C.AppId)
    requires app !in C.Apply(c, C.Claim(app)).claims
    ensures app in c.outgoing
  {
  }

  /** `send_text` has the id: it was claimed, or a send was on record under it. */
  ghost predicate SendTextHas(past: Past, from: nat, y: Identity, app: C.AppId) {
    || (exists at: nat :: from <= at < |past.chats| && app in past.chats[at].claims)
    || (exists k: nat :: Within(past.versions, from, k) && !Status(past.versions[k], y, W.TextId(app)).NotSent?)
  }

  lemma NotQueued(past: Past, from: nat, y: Identity, app: C.AppId, body: Bytes, sentRaw: bool, at: nat, k: nat)
    requires from <= at && at + 1 < |past.chats| && app !in past.chats[at + 1].outgoing
    requires past.chats[at + 1] == C.Apply(past.chats[at], C.Queue(app, body, sentRaw))
    requires Within(past.versions, from, k) && sentRaw == !Status(past.versions[k], y, W.TextId(app)).NotSent?
    ensures SendTextHas(past, from, y, app)
  {
    hide Status;
  }

  lemma QueuedIsCounted(now: Past, was: Past, from: nat, app: C.AppId, body: Bytes, number: nat) returns (i: nat)
    requires Extends(now, was) && QueuedAs(was, from, app, body, number)
    ensures i < |now.chats| && Counted(now.chats[i], number)
  {
    hide C.Apply;
    var at: nat, sentRaw: bool :| QueuedAt(was, from, app, body, at, sentRaw) && was.chats[at + 1].outgoing[app] == number;
    i := at + 1;
    assert app in now.chats[i].outgoing.Keys;
  }

  lemma LostSince(versions: seq<Contents>, since: nat, least: nat, handle: nat, e: ChatError)
    requires least <= since && SessionLost(versions, since, handle, e)
    ensures SessionLost(versions, least, handle, e)
  {
    hide MC.SlotTaken;
    if e == FromMessenger(NoSession) {
      MC.SlotTakenLater(versions, versions, since, least, handle);
    }
  }

  lemma SlotIsTaken(versions: seq<Contents>, since: nat, handle: nat, q: Identity, k: nat)
    requires Within(versions, since, k) && Lookup(versions[k], HandleKey(handle)) == Some(HandleRecord(q))
    ensures MC.SlotTaken(versions, since, handle)
  {
    MC.IsNamed(versions, since, handle, q, k);
  }

  lemma MissingSince(chats: seq<C.Chat>, since: nat, least: nat)
    requires least <= since && EntryMissing(chats, since)
    ensures EntryMissing(chats, least)
  {
    var number: nat, i: nat, j: nat :| MissingAt(chats, since, number, i, j);
    assert MissingAt(chats, least, number, i, j);
  }

  // ── Why each call came to that ────────────────────────────────────────────

  lemma SendCame(mid: Past, now: Past, from: nat, least: nat, handle: nat, y: Identity, number: nat, e: C.Entry,
                 outcome: SendOutcome, at: nat, k: nat)
    requires Extends(now, mid) && least <= from && CameTo(outcome).Some?
    requires ToldAt(mid, least, handle, y, e.app, outcome, k)
    requires AdvancesAt(now, from, at, number, CameTo(outcome).value.0, Some(CameTo(outcome).value.1))
    ensures Sends(now, least, handle, y, number, e)
  {
    hide Told, Regular, C.Apply;
    ToldLater(mid, now, least, least, handle, y, e.app, outcome, k);
    assert AdvancesAt(now, least, at, number, CameTo(outcome).value.0, Some(CameTo(outcome).value.1));
    assert SendsAs(now, least, handle, y, number, e, outcome);
  }

  /** What `ReadPriorSend` answers of the records it read. */
  predicate PriorIs(c: Contents, y: Identity, app: C.AppId, prior: Option<SendOutcome>) {
    match Status(c, y, W.TextId(app))
    case NotSent => prior == None
    case Broken => false
    case status => prior == Some(Repeated(status))
  }

  lemma NothingTold(past: Past, from: nat, y: Identity, number: nat, e: C.Entry, prior: Option<SendOutcome>, k: nat)
    requires from <= k + 1 && k < |past.versions| && PriorIs(past.versions[k], y, e.app, prior) && RecordTells(e, prior).None?
    ensures ComparedAt(past, from, y, number, e, k)
  {
    hide Status;
  }

  lemma ComparedSo(past: Past, from: nat, least: nat, y: Identity, number: nat, e: C.Entry, prior: Option<SendOutcome>, k: nat)
    requires least <= from && least <= k + 1 && k < |past.versions| && PriorIs(past.versions[k], y, e.app, prior)
    requires RecordTells(e, prior).Some? && Advances(past, from, number, RecordTells(e, prior).value, None)
    ensures ComparedAt(past, least, y, number, e, k)
  {
    hide Status, Advances;
    AdvancesLater(past, past, from, least, number, RecordTells(e, prior).value, None);
  }

  lemma StepObeys(d: Device, before: seq<Contents>, mid: seq<Contents>, now: Past, handle: nat, y: Identity, s: Step)
    requires before <= mid <= now.versions && |now.versions| == |now.chats| && Took(d, 0, before, mid, s) && !s.event.tx.Send?
    ensures StepTook(d, handle, y, now.versions, now.chats, s)
  {
    hide Formed, After, Regular, Reads;
    assert now.versions[..s.at + 2] == mid;
  }

  lemma RemovalObeys(d: Device, before: seq<Contents>, mid: seq<Contents>, now: Past, handle: nat, y: Identity, s: Step)
    requires before <= mid <= now.versions && |now.versions| == |now.chats| && s.event.tx.Remove?
    requires handle == d.handleOf(y) && HandleShowed(mid, handle, s.event.tx.base.peer)
    requires handle == d.handleOf(s.event.tx.base.peer) ==> Took(d, 0, before, mid, s)
    ensures StepTook(d, handle, y, now.versions, now.chats, s)
  {
    hide Took, HandleShowed, C.Consistent, N.Consistent;
    if Regular(now.versions, now.chats, handle, y) {
      N.ConsistentBefore(mid, now.versions, handle, y);
      N.OwnerIs(mid, handle, y, s.event.tx.base.peer);
      StepObeys(d, before, mid, now, handle, y, s);
    }
  }

  lemma MarkedNow(versions: seq<Contents>, now: Past, handle: nat, id: MessageId)
    requires |versions| > 0 && versions <= now.versions
    requires exists p :: HandleShowed(versions, handle, p) && SeenKey(p, id) in versions[|versions| - 1]
                         && InboxKey(p, id) !in versions[|versions| - 1]
    ensures MarkedAt(now, handle, id, |versions| - 1)
  {
    hide HandleShowed;
    var p :| HandleShowed(versions, handle, p) && SeenKey(p, id) in versions[|versions| - 1]
             && InboxKey(p, id) !in versions[|versions| - 1];
    P.HandleShownLater(versions, now.versions, handle, p);
  }

  lemma GoneNow(versions: seq<Contents>, now: Past, handle: nat, id: MessageId)
    requires |versions| > 0 && versions <= now.versions
    requires exists p :: HandleShowed(versions, handle, p) && OutboxKey(p, id) !in versions[|versions| - 1]
    ensures Gone(now, handle, id)
  {
    hide HandleShowed;
    var p :| HandleShowed(versions, handle, p) && OutboxKey(p, id) !in versions[|versions| - 1];
    P.HandleShownLater(versions, now.versions, handle, p);
    assert GoneAt(now, handle, id, |versions| - 1);
  }

  lemma RemovedNow(versions: seq<Contents>, now: Past, from: nat, handle: nat, p: Identity)
    requires from <= |versions| && |versions| > 0 && versions <= now.versions && HandleShowed(versions, handle, p)
    requires {SessionKey(p), HandleKey(handle), HandshakeKey(p)} !! versions[|versions| - 1].Keys
    ensures SessionRemoved(now, from, handle)
  {
    hide HandleShowed;
    P.HandleShownLater(versions, now.versions, handle, p);
    assert RemovedAt(now, from, handle, |versions| - 1, p);
  }

  lemma SessionRemovedLater(past: Past, from: nat, least: nat, handle: nat)
    requires least <= from && SessionRemoved(past, from, handle)
    ensures SessionRemoved(past, least, handle)
  {
    hide HandleShowed;
    var k: nat, p: Identity :| RemovedAt(past, from, handle, k, p);
    assert RemovedAt(past, least, handle, k, p);
  }

  lemma FoundConfirmed(versions: seq<Contents>, now: Past, from: nat, handle: nat, shown: nat, s: SessionState)
    requires from <= |versions| && shown < |versions| && versions <= now.versions && Established(s)
    requires Lookup(versions[shown], HandleKey(handle)) == Some(HandleRecord(s.peer))
    requires Lookup(versions[|versions| - 1], SessionKey(s.peer)) == Some(SessionRecord(s))
    ensures SessionConfirmed(now, from, handle)
  {
    hide Established;
    assert Lookup(now.versions[shown], HandleKey(handle)) == Some(HandleRecord(s.peer));
    assert ConfirmedAt(now, from, handle, |versions| - 1, s);
  }

  lemma QueuedLater(was: Past, now: Past, from: nat, app: C.AppId, body: Bytes, number: nat)
    requires Extends(now, was) && QueuedAs(was, from, app, body, number)
    ensures QueuedAs(now, from, app, body, number)
  {
    hide C.Apply;
    var at: nat, sentRaw: bool :| QueuedAt(was, from, app, body, at, sentRaw) && was.chats[at + 1].outgoing[app] == number;
    assert QueuedAt(now, from, app, body, at, sentRaw);
  }

  lemma RefreshedWithout(was: Past, now: Past, from: nat, least: nat, our: Identity, handle: nat, y: Identity,
                         transmitted: set<MessageId>)
    requires Extends(now, was) && least <= from && SessionAbsent(was, least, handle)
    requires AllHandled(now, from, handle, y, Known(false, {}, transmitted))
    ensures Refreshed(now, least, our, handle, y, transmitted)
  {
    hide AllHandled, SessionAbsent, InboxTaken, OutboxRead, N.LegacyShown, N.NoLegacyShown;
    SessionSeenLater(was, now, least, least, handle);
    AllHandledLater(now, now, from, least, handle, y, Known(false, {}, transmitted));
    assert RefreshedOn(now, least, our, handle, y, Known(false, {}, transmitted));
  }

  lemma ListTakenLater(was: Past, now: Past, from: nat, handle: nat, ms: seq<IncomingMessage>)
    requires Extends(now, was)
    requires forall i :: 0 <= i < |ms| && ms[i].plaintext.Text? ==> Taken(was, from, handle, ms[i])
    ensures forall i :: 0 <= i < |ms| && ms[i].plaintext.Text? ==> Taken(now, from, handle, ms[i])
  {
    hide Taken;
    forall i | 0 <= i < |ms| && ms[i].plaintext.Text?
      ensures Taken(now, from, handle, ms[i])
    {
      TakenLater(was, now, from, from, handle, ms[i]);
    }
  }

  lemma AllTaken(read: seq<Contents>, now: Past, from: nat, handle: nat, owner: Identity, listed: nat, ms: seq<IncomingMessage>)
    requires read <= now.versions && from <= listed + 1 && listed < |read| && HandleShowed(read, handle, owner)
    requires P.GatheredIncoming(read, owner, P.InboxIds(read[listed].Keys, owner), ms)
    requires forall i :: 0 <= i < |ms| && ms[i].plaintext.Text? ==> Taken(now, from, handle, ms[i])
    ensures InboxTaken(now, from, handle)
  {
    hide Taken, HandleShowed, P.ShowsInbox, P.ByGeneration, P.ReadIncoming;
    P.HandleShownLater(read, now.versions, handle, owner);
    forall id | id in P.InboxIds(now.versions[listed].Keys, owner)
      ensures RowTaken(now, from, handle, owner, id)
    {
      assert P.InboxListed(read, owner, id, ms);
      var m :| m in ms && P.ShowsInbox(read, owner, id, m);
      P.ShowsInboxLater(read, now.versions, owner, id, m);
    }
    assert InboxTakenAt(now, from, handle, owner, listed);
  }

  lemma OutboxListedSo(read: seq<Contents>, now: Past, from: nat, handle: nat, pending: set<MessageId>, owner: Identity, listed: nat,
                       ms: seq<OutgoingMessage>)
    requires read <= now.versions && from <= listed + 1 && listed < |read| && HandleShowed(read, handle, owner)
    requires P.GatheredOutgoing(read, owner, P.OutboxIds(read[listed].Keys, owner), ms) && pending == set m | m in ms :: m.id
    ensures OutboxRead(now, from, handle, pending)
  {
    hide HandleShowed, P.GatheredOutgoing;
    P.HandleShownLater(read, now.versions, handle, owner);
    P.GatheredOutgoingLater(read, now.versions, owner, P.OutboxIds(read[listed].Keys, owner), ms);
    assert OutboxReadAt(now, from, handle, pending, owner, listed, ms);
  }

  lemma AllGoneLater(was: Past, now: Past, handle: nat, ms: seq<OutgoingMessage>)
    requires Extends(now, was) && forall i :: 0 <= i < |ms| ==> Gone(was, handle, ms[i].id)
    ensures forall i :: 0 <= i < |ms| ==> Gone(now, handle, ms[i].id)
  {
    hide Gone;
    forall i | 0 <= i < |ms|
      ensures Gone(now, handle, ms[i].id)
    {
      GoneLater(was, now, handle, ms[i].id);
    }
  }

  lemma AllGone(read: seq<Contents>, now: Past, from: nat, handle: nat, owner: Identity, listed: nat, ms: seq<OutgoingMessage>)
    requires read <= now.versions && from <= listed + 1 && listed < |read| && HandleShowed(read, handle, owner)
    requires P.GatheredOutgoing(read, owner, P.OutboxIds(read[listed].Keys, owner), ms)
    requires forall i :: 0 <= i < |ms| ==> Gone(now, handle, ms[i].id)
    ensures OutboxEmptied(now, from, handle)
  {
    hide Gone, HandleShowed, P.GatheredOutgoing, OutboxRead;
    var pending := set m | m in ms :: m.id;
    OutboxListedSo(read, now, from, handle, pending, owner, listed, ms);
    assert EmptiedOf(now, from, handle, pending);
  }

  lemma EntriesHandledLater(was: Past, now: Past, from: nat, handle: nat, y: Identity, known: Known, n: nat)
    requires Extends(now, was) && forall i :: 1 <= i <= n ==> EntryHandled(was, from, handle, y, i, known)
    ensures forall i :: 1 <= i <= n ==> EntryHandled(now, from, handle, y, i, known)
  {
    hide EntryHandled;
    forall i | 1 <= i <= n
      ensures EntryHandled(now, from, handle, y, i, known)
    {
      EntryHandledLater(was, now, from, from, handle, y, i, known);
    }
  }

  lemma EveryEntryHandled(past: Past, from: nat, handle: nat, y: Identity, known: Known, j: nat, count: nat)
    requires from <= j < |past.chats| && count == past.chats[j].last
    requires forall i :: 1 <= i <= count ==> EntryHandled(past, from, handle, y, i, known)
    ensures AllHandled(past, from, handle, y, known)
  {
    hide EntryHandled;
    assert AllHandledAt(past, from, handle, y, known, j);
  }

  lemma EntriesGivenUpLater(was: Past, now: Past, from: nat, n: nat)
    requires Extends(now, was) && forall i :: 1 <= i <= n ==> EntryGivenUp(was, from, i)
    ensures forall i :: 1 <= i <= n ==> EntryGivenUp(now, from, i)
  {
    hide EntryGivenUp;
    forall i | 1 <= i <= n
      ensures EntryGivenUp(now, from, i)
    {
      EntryGivenUpLater(was, now, from, from, i);
    }
  }

  lemma EveryEntryGivenUp(past: Past, from: nat, j: nat, count: nat)
    requires from <= j < |past.chats| && count == past.chats[j].last
    requires forall i :: 1 <= i <= count ==> EntryGivenUp(past, from, i)
    ensures AllGivenUp(past, from)
  {
    hide EntryGivenUp;
    assert AllGivenUpAt(past, from, j);
  }

  // ── Why each transaction is a step ────────────────────────────────────────

  lemma ClaimTook(d: Device, handle: nat, y: Identity, versions: seq<Contents>, chats: seq<C.Chat>, at: nat, app: C.AppId)
    requires |versions| == |chats| && at + 1 < |chats| && versions[at + 1] == versions[at]
    requires chats[at + 1] == C.Apply(chats[at], C.Claim(app)) || chats[at + 1] == chats[at]
    ensures ChatTook(d, handle, y, versions, chats, ChatStep(at, C.Claim(app)))
  {
    hide C.Apply, Regular;
  }

  predicate UnconfirmedAt(c: Contents, y: Identity) {
    SessionKey(y) in c && c[SessionKey(y)].SessionRecord? && !Established(c[SessionKey(y)].session)
  }

  lemma FoundUnconfirmed(mid: seq<Contents>, after: seq<Contents>, chats: seq<C.Chat>, handle: nat, y: Identity, shown: nat,
                         s: SessionState)
    requires |mid| > 0 && mid <= after && shown < |mid| && !Established(s)
    requires Lookup(mid[shown], HandleKey(handle)) == Some(HandleRecord(s.peer))
    requires Lookup(mid[|mid| - 1], SessionKey(s.peer)) == Some(SessionRecord(s))
    ensures Regular(after, chats, handle, y) ==> UnconfirmedAt(after[|mid| - 1], y)
  {
    hide C.Consistent, N.ConsistentRows;
    if Regular(after, chats, handle, y) {
      N.ConsistentBefore(mid, after, handle, y);
      P.HandleShownLater(mid, mid, handle, s.peer) by {
        assert Lookup(mid[shown], HandleKey(handle)) == Some(HandleRecord(s.peer));
      }
      N.OwnerIs(mid, handle, y, s.peer);
    }
  }

  lemma StillUnconfirmed(versions: seq<Contents>, chats: seq<C.Chat>, later: seq<Contents>, chats': seq<C.Chat>, handle: nat,
                         y: Identity, k: nat)
    requires k < |versions| && versions <= later && chats <= chats'
    requires Regular(versions, chats, handle, y) ==> UnconfirmedAt(versions[k], y)
    ensures Regular(later, chats', handle, y) ==> UnconfirmedAt(later[k], y)
  {
    hide Regular, UnconfirmedAt;
    if Regular(later, chats', handle, y) {
      RegularBefore(versions, later, chats, chats', handle, y);
    }
  }

  lemma GivenUpTook(d: Device, handle: nat, y: Identity, versions: seq<Contents>, chats: seq<C.Chat>, later: seq<Contents>,
                    chats': seq<C.Chat>, at: nat, number: nat, e: C.Entry, j: nat, k: nat)
    requires |versions| == |chats| && |later| == |chats'| && versions <= later && chats <= chats' && d.our > y
    requires k <= j < |chats| && j <= at && at + 1 < |chats'| && later[at + 1] == later[at]
    requires number in chats'[j].entries && chats'[j].entries[number] == e && e.outgoing && InFlight(e)
    requires Regular(versions, chats, handle, y) ==> UnconfirmedAt(versions[k], y)
    requires var tx := C.Advance(number, C.EntryState.NotDelivered, None);
             chats'[at + 1] == C.Apply(chats'[at], tx) || chats'[at + 1] == chats'[at]
    ensures ChatTook(d, handle, y, later, chats', ChatStep(at, C.Advance(number, C.EntryState.NotDelivered, None)))
  {
    hide C.Apply, Regular, Justified;
    if Regular(later, chats', handle, y) {
      RegularBefore(versions, later, chats, chats', handle, y);
      GivingUpJustified(d, y, later, chats', at, number, e, j, k);
    }
  }

  lemma GatheredMember(versions: seq<Contents>, p: Identity, done: set<MessageId>, ms: seq<IncomingMessage>, m: IncomingMessage)
    requires P.GatheredIncoming(versions, p, done, ms) && m in ms
    ensures P.ReadIncoming(versions, p, m)
  {
  }

  lemma IncomingTook(d: Device, handle: nat, y: Identity, read: seq<Contents>, versions: seq<Contents>, chats: seq<C.Chat>,
                     at: nat, owner: Identity, m: IncomingMessage)
    requires |versions| == |chats| && at + 1 < |versions| && read <= versions && |read| <= at + 1
    requires versions[at + 1] == versions[at] && m.plaintext.Text?
    requires HandleShowed(read, handle, owner) && P.ReadIncoming(read, owner, m)
    requires var tx := C.RecordIncoming(m.id, m.plaintext.body);
             chats[at + 1] == C.Apply(chats[at], tx) || chats[at + 1] == chats[at]
    ensures ChatTook(d, handle, y, versions, chats, ChatStep(at, C.RecordIncoming(m.id, m.plaintext.body)))
  {
    hide C.Apply, Regular, Justified, HandleShowed, P.ReadIncoming;
    if Regular(versions, chats, handle, y) {
      IncomingJustified(d, handle, y, read, versions, chats, at, owner, m);
    }
  }

  lemma QueueTook(d: Device, handle: nat, y: Identity, versions: seq<Contents>, chats: seq<C.Chat>, at: nat, k: nat, c: Contents,
                  app: C.AppId, text: Payload, sentRaw: bool)
    requires |versions| == |chats| && k <= at && at + 1 < |versions| && versions[k] == c && text.Text?
    requires versions[at + 1] == versions[at] && sentRaw == !Status(c, y, W.TextId(app)).NotSent?
    requires var tx := C.Queue(app, text.body, sentRaw);
             chats[at + 1] == C.Apply(chats[at], tx) || chats[at + 1] == chats[at]
    ensures ChatTook(d, handle, y, versions, chats, ChatStep(at, C.Queue(app, text.body, sentRaw)))
  {
    hide C.Apply, Regular, Justified, Status;
    QueueJustified(d, y, versions, chats, at, k, app, text, sentRaw);
  }

  lemma RelayTookIt(y: Identity, c: Contents, e: C.Entry)
    requires e.outgoing && e.state.Pending?
    ensures Reason(y, c, e, C.EntryState.Transmitted, None)
  {
    hide Status;
  }

  lemma RecordSays(y: Identity, c: Contents, e: C.Entry, state: C.EntryState)
    requires e.outgoing && InFlight(e) && e.id.Some?
    requires || (state.Delivered? && Status(c, y, W.TextId(e.app)) == Acknowledged(e.id.value))
             || (state.NotDelivered? && Status(c, y, W.TextId(e.app)) == Abandoned(e.id.value))
    ensures Reason(y, c, e, state, None)
  {
    hide Status;
  }

  lemma EntryAdvances(d: Device, handle: nat, y: Identity, versions: seq<Contents>, chats: seq<C.Chat>, later: seq<Contents>,
                      chats': seq<C.Chat>, at: nat, number: nat, e: C.Entry, state: C.EntryState, j: nat, k: nat)
    requires |versions| == |chats| && |later| == |chats'| && versions <= later && chats <= chats'
    requires j <= k < |chats| <= at + 1 && at + 1 < |chats'| && later[at + 1] == later[at]
    requires number in chats[j].entries && chats[j].entries[number] == e && Reason(y, versions[k], e, state, None)
    requires var tx := C.Advance(number, state, None);
             chats'[at + 1] == C.Apply(chats'[at], tx) || chats'[at + 1] == chats'[at]
    ensures ChatTook(d, handle, y, later, chats', ChatStep(at, C.Advance(number, state, None)))
  {
    hide C.Apply, Regular, Justified, Reason;
    AdvanceJustified(d, y, later, chats', at, number, e, state, None, j, k);
  }

  lemma EntryIsSendable(versions: seq<Contents>, chats: seq<C.Chat>, handle: nat, y: Identity, j: nat, number: nat, e: C.Entry)
    requires j < |chats| && number in chats[j].entries && chats[j].entries[number] == e && e.outgoing
    ensures Regular(versions, chats, handle, y) ==> SendsEntry(chats[j], e.app, Payload.Text(e.text))
  {
    hide N.Consistent;
    if Regular(versions, chats, handle, y) {
      assert C.Consistent(chats[j]);
    }
  }

  lemma SentAdvances(d: Device, handle: nat, y: Identity, versions: seq<Contents>, chats: seq<C.Chat>, later: seq<Contents>,
                     chats': seq<C.Chat>, at: nat, number: nat, e: C.Entry, outcome: SendOutcome, j: nat, k: nat)
    requires |versions| == |chats| && |later| == |chats'| && versions <= later && chats <= chats'
    requires j <= k < |chats| <= at + 1 && at + 1 < |chats'| && later[at + 1] == later[at]
    requires number in chats[j].entries && chats[j].entries[number] == e && e.outgoing && e.state.Queued?
    requires CameTo(outcome).Some?
    requires Regular(versions, chats, handle, y) ==> Told(versions[k], y, e.app, outcome)
    requires var tx := C.Advance(number, CameTo(outcome).value.0, Some(CameTo(outcome).value.1));
             chats'[at + 1] == C.Apply(chats'[at], tx) || chats'[at + 1] == chats'[at]
    ensures ChatTook(d, handle, y, later, chats',
                     ChatStep(at, C.Advance(number, CameTo(outcome).value.0, Some(CameTo(outcome).value.1))))
  {
    hide C.Apply, Regular, Justified, Status, Reason, CameTo;
    if Regular(later, chats', handle, y) {
      RegularBefore(versions, later, chats, chats', handle, y);
      SendReason(y, later[k], e, outcome);
      AdvanceJustified(d, y, later, chats', at, number, e, CameTo(outcome).value.0, Some(CameTo(outcome).value.1), j, k);
    }
  }

  lemma SentTold(d: Device, before: seq<Contents>, mid: seq<Contents>, after: seq<Contents>, chats: seq<C.Chat>, handle: nat,
                 y: Identity, s: Step, was: map<nat, MessengerRecovery.Unresolved>, now: map<nat, MessengerRecovery.Unresolved>,
                 r: Result<SendOutcome, MessagingError>, app: C.AppId)
    requires before <= mid <= after && Took(d, 0, before, mid, s) && s.event.tx.Send?
    requires s.event.tx.handle == handle && s.event.tx.client == W.TextId(app)
    requires SendDone(d, was, now, mid[s.at], s.event, r) && r.Ok?
    ensures |before| <= s.at + 1 && s.at + 1 < |mid|
    ensures Regular(after, chats, handle, y) ==> Told(after[s.at + 1], y, app, r.value)
  {
    N.SentIsPending(d, before, mid, s, was, now, r);
    if Regular(after, chats, handle, y) {
      SendIndex(d, before, mid, after, chats, handle, y, s);
    }
  }

  lemma SendIndex(d: Device, before: seq<Contents>, mid: seq<Contents>, after: seq<Contents>, chats: seq<C.Chat>, handle: nat,
                  y: Identity, s: Step)
    requires mid <= after && Took(d, 0, before, mid, s) && s.event.tx.Send? && s.event.tx.handle == handle
    requires Regular(after, chats, handle, y)
    ensures s.event.tx.index == y
  {
    hide Formed, After, C.Consistent;
    N.ConsistentBefore(mid, after, handle, y);
    assert Lookup(mid[s.event.listed], HandleKey(handle)) == Some(HandleRecord(s.event.tx.index));
    N.OwnerIs(mid, handle, y, s.event.tx.index);
  }

  lemma PriorTold(mid: seq<Contents>, after: seq<Contents>, chats: seq<C.Chat>, handle: nat, y: Identity, app: C.AppId,
                  prior: PriorRead, outcome: SendOutcome)
    requires mid <= after && ReportsPrior(mid, handle, W.TextId(app), prior, outcome)
    ensures prior.at < |mid| && CameTo(outcome).Some?
    ensures Regular(after, chats, handle, y) ==> Told(after[prior.at], y, app, outcome)
  {
    hide Status, C.Consistent;
    if Regular(after, chats, handle, y) {
      N.ConsistentBefore(mid, after, handle, y);
      N.OwnerIs(mid, handle, y, prior.peer);
    }
  }

  lemma SendObeys(d: Device, before: seq<Contents>, mid: seq<Contents>, after: seq<Contents>, was: seq<C.Chat>, chats: seq<C.Chat>,
                  handle: nat, y: Identity, s: Step, app: C.AppId, body: Bytes, j: nat)
    requires before <= mid <= after && was <= chats && |after| == |chats| && |before| == |was| && j < |was|
    requires Took(d, 0, before, mid, s) && s.event.tx.Send?
    requires s.event.tx.client == W.TextId(app) && s.event.tx.plaintext == Payload.Text(body)
    requires Regular(before, was, handle, y) ==> SendsEntry(was[j], app, Payload.Text(body)) || app in was[j].claims
    ensures StepTook(d, handle, y, after, chats, s)
  {
    hide Formed, After, Regular, SendsEntry, Reads;
    assert after[..s.at + 2] == mid;
    if Regular(after, chats, handle, y) {
      RegularBefore(before, after, was, chats, handle, y);
      assert W.TextId(app)[1..] == app;
      assert SendsEntry(chats[j], app, Payload.Text(body)) || app in chats[j].claims;
    }
  }
}

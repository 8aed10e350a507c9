/** What `NotDelivered` does not say: runs of two devices in which a text given
    up reached its peer all the same. */
module GivenUpWitnesses {
  import opened Prelude
  import opened SymbolicKeys
  import opened StoreRecords
  import opened ConditionalWrites
  import opened MessengerModel
  import opened MessengerInvariant
  import opened MessengerRuns
  import opened MessengerGuarantees
  import opened EndToEnd
  import opened EndToEndRuns
  import opened FirstExchange
  import opened DeliveryHappens
  import opened ChatRuns
  import C = ChatModel
  import W = WireCodec

  function Shown(state: C.EntryState, e: Exchange): C.Chat {
    Listed(ENTRY.(state := state, id := Some(e.text)))
  }

  /** A session conflict is resolved between the text and its receipt: the session
      was still unconfirmed, so the text is given up; then the receipt arrives. */
  function GivenUpHistory(d: Device, y: Identity, e: Exchange): ChatRun {
    var (queued, pending, given) := (Listed(ENTRY), Shown(C.EntryState.Pending, e), Shown(C.EntryState.NotDelivered, e));
    ChatRun(InitiatorRun(d, y, e),
            [C.EMPTY, queued, queued, queued, pending, given, given, given, given, given],
            [C.Queue([1], [2], false), C.Idle, C.Idle, C.Advance(1, C.EntryState.Pending, Some(e.text)),
             C.Advance(1, C.EntryState.NotDelivered, None), C.Idle, C.Idle, C.Idle, C.Idle])
  }

  lemma StatusOfText(d: Device, y: Identity, e: Exchange)
    ensures Status(map[], y, APP).NotSent? && APP[1..] == [1]
    ensures Status(Sent(d, y, e), y, APP).Pending? && Status(Sent(d, y, e), y, APP).message.id == e.text
    ensures Status(Abandoned(d, y, e), y, APP) == MessengerGuarantees.Abandoned(e.text)
  {
  }

  /** Both histories begin alike: the text is queued, sent and shown as pending. */
  lemma TextStep(d: Device, y: Identity, e: Exchange, cr: ChatRun, i: nat)
    requires |cr.chats| == |cr.run.versions| == |cr.steps| + 1 == |cr.run.events| + 1 == 10 && i < 4
    requires cr.run.versions[0] == map[] && cr.run.versions[3] == Sent(d, y, e)
    requires cr.run.events[i] == InitiatorEvent(d, y, e, i)
    requires cr.chats[0] == C.EMPTY && cr.chats[1] == cr.chats[2] == cr.chats[3] == Listed(ENTRY)
    requires cr.chats[4] == Shown(C.EntryState.Pending, e)
    requires cr.steps[0] == C.Queue([1], [2], false) && cr.steps[1] == cr.steps[2] == C.Idle
    requires cr.steps[3] == C.Advance(1, C.EntryState.Pending, Some(e.text))
    ensures ChatStepOf(d, y, cr, i)
  {
    var (versions, chats) := (cr.run.versions, cr.chats);
    hide Started, Status;
    StatusOfText(d, y, e);
    assert W.TextId([1]) == APP;
    if i == 0 {
      assert Status(versions[0], y, APP).NotSent?;
      assert Justified(d, y, versions, chats, 0, cr.steps[0]);
    } else if i == 2 {
      assert SendsEntry(chats[1], APP[1..], TEXT);
    } else if i == 3 {
      assert AdvanceReason(d, y, versions, chats, 1, C.EntryState.Pending, Some(e.text), 3, 3);
    }
  }

  lemma GivenUpStep(d: Device, y: Identity, e: Exchange, i: nat)
    requires IsExchange(d.our, y, e) && i < 9 && d.our > y
    ensures ChatStepOf(d, y, GivenUpHistory(d, y, e), i)
  {
    var cr := GivenUpHistory(d, y, e);
    hide IsExchange, Started, StagedSend, StagedReceive;
    if i < 4 {
      TextStep(d, y, e, cr, i);
    } else if i == 4 {
      assert Unconfirmed(e) by { ExchangeUnconfirmed(d.our, y, e); }
      assert GivesUp(d, y, cr.run.versions[4], cr.chats[4].entries[1], C.EntryState.NotDelivered, None);
      assert AdvanceReason(d, y, cr.run.versions, cr.chats, 1, C.EntryState.NotDelivered, None, 4, 4);
    }
  }

  predicate Unconfirmed(e: Exchange) {
    !Established(e.a1)
  }

  lemma ExchangeUnconfirmed(x: Identity, y: Identity, e: Exchange)
    requires IsExchange(x, y, e)
    ensures Unconfirmed(e)
  {
  }

  lemma GivenUpIsChatRun(d: Device, y: Identity, e: Exchange)
    requires IsExchange(d.our, y, e) && d.our > y
    ensures IsChatRun(d, y, GivenUpHistory(d, y, e))
  {
    hide IsRun, NoCollision, ChatStepOf, IsExchange, Started, Sent, Created, Receipted, Acked;
    var cr := GivenUpHistory(d, y, e);
    InitiatorIsRun(d, y, e);
    forall i | 0 <= i < |cr.steps|
      ensures ChatStepOf(d, y, cr, i)
    {
      GivenUpStep(d, y, e, i);
    }
  }

  lemma ExchangeEnds(da: Device, db: Device, e: Exchange)
    ensures Status(Acked(da, db.our, e), db.our, APP) == Acknowledged(e.text)
    ensures DeliveryOf(Answered(db, da.our, e), da.our, e.text).Undelivered?
    ensures W.TextId([1]) == APP
  {
  }

  /** A text shown as given up can be acknowledged, by the very receipt that says
      the peer holds it. Every step is one the network layer takes. */
  lemma GivenUpYetHeld(da: Device, db: Device) returns (w: WorldRun, cr: ChatRun)
    requires da.our > db.our
    ensures IsWorldRun(da, db, w) && IsChatRun(da, db.our, cr) && cr.run == w.a
    ensures |cr.chats| == 10 && 1 in cr.chats[9].entries && cr.chats[9].entries[1].state.NotDelivered?
    ensures var e := cr.chats[9].entries[1];
            && e.id.Some? && Status(w.a.versions[9], db.our, W.TextId(e.app)) == Acknowledged(e.id.value)
            && !DeliveryOf(w.b.versions[9], da.our, e.id.value).NotAccepted?
  {
    hide IsRun, NoCollision, TogetherAt, ChatStepOf, IsExchange, Started, Acked, Answered, Status, Sent, Created, Receipted, Accepted;
    var e := ExchangeExists(da.our, db.our);
    w, cr := Together(da, db, e), GivenUpHistory(da, db.our, e);
    TogetherIsRun(da, db, e);
    GivenUpIsChatRun(da, db.our, e);
    ExchangeEnds(da, db, e);
  }

  // ── Nothing on the device tells ───────────────────────────────────────────

  function Abandoned(d: Device, y: Identity, e: Exchange): Contents {
    (Sent(d, y, e) - {OutboxKey(y, e.text)})[SendIdKey(y, APP) := AbandonedRecord(e.text)]
  }

  function AbandonedVersion(d: Device, y: Identity, e: Exchange, i: nat): Contents {
    if i < 2 then map[] else if i == 2 then Created(d, y) else if i < 7 then Sent(d, y, e) else Abandoned(d, y, e)
  }

  function AbandonedEvent(d: Device, y: Identity, e: Exchange, i: nat): Event {
    match i
    case 1 => Event(Create(y, 1, Some(2), 3, 4), NoFault, 0, 0)
    case 2 => Event(Send(d.handleOf(y), y, Started(d.our, y), APP, TEXT, 0), NoFault, 2, 2)
    case 6 => Event(Abandon(y, e.text), NoFault, 0, 0)
    case _ => Idle(y)
  }

  function AbandonedRun(d: Device, y: Identity, e: Exchange): Run {
    Run(seq(10, (i: nat) => AbandonedVersion(d, y, e, i)), NEXT, seq(9, (i: nat) => AbandonedEvent(d, y, e, i)))
  }

  lemma AbandonLeads(d: Device, y: Identity, e: Exchange)
    ensures Leads(d, 7, Sent(d, y, e), Abandon(y, e.text), Abandoned(d, y, e))
  {
  }

  lemma AbandonedStarts(d: Device, y: Identity, e: Exchange)
    requires IsExchange(d.our, y, e)
    ensures var r := AbandonedRun(d, y, e);
            StepOf(d, r, 1) && StepOf(d, r, 2) && StepOf(d, r, 6)
  {
    hide Leads, Created, Sent, Abandoned, IsExchange, Started, StepOf, Formed, After, Fires, Effect, ListedEmpty;
    CreateLeads(d, y, e);
    TextLeads(d, y, e);
    AbandonLeads(d, y, e);
    HandlesShow(d, y, e);
    var r := AbandonedRun(d, y, e);
    TakenStep(d, r, 1);
    TakenStep(d, r, 2);
    TakenStep(d, r, 6);
  }

  lemma AbandonedIsRun(d: Device, y: Identity, e: Exchange)
    requires IsExchange(d.our, y, e)
    ensures IsRun(d, AbandonedRun(d, y, e)) && NoCollision(d, AbandonedRun(d, y, e))
  {
    hide Created, Sent, Abandoned, IsExchange, Started, Inv, StepOf, Formed, After, Fires, Effect, Reads, NextAfter;
    HandlesShow(d, y, e);
    var r := AbandonedRun(d, y, e);
    AbandonedStarts(d, y, e);
    forall i | 0 <= i < 9
      ensures StepOf(d, r, i)
    {
      if i !in {1, 2, 6} {
        IdleStep(d, r, i, y);
      }
    }
    EmptyIsSound(d);
    NoIdleSend(d, r, y);
  }

  /** The peer never acts. */
  function SilentRun(x: Identity): Run {
    Run(seq(10, (i: nat) => map[]), NEXT, seq(9, (i: nat) => Idle(x)))
  }

  lemma SilentIsRun(d: Device, x: Identity)
    ensures IsRun(d, SilentRun(x)) && NoCollision(d, SilentRun(x))
  {
    hide Inv, StepOf;
    var r := SilentRun(x);
    forall i | 0 <= i < 9
      ensures StepOf(d, r, i)
    {
      IdleStep(d, r, i, x);
    }
    EmptyIsSound(d);
  }

  lemma AbandonedTogether(da: Device, db: Device, e: Exchange, i: nat)
    requires IsExchange(da.our, db.our, e) && i < 9
    ensures TogetherAt(da, db, WorldRun(AbandonedRun(da, db.our, e), ResponderRun(db, da.our, e)), i)
    ensures TogetherAt(da, db, WorldRun(AbandonedRun(da, db.our, e), SilentRun(da.our)), i)
  {
    var (x, y) := (da.our, db.our);
    var w := WorldRun(AbandonedRun(da, y, e), ResponderRun(db, x, e));
    hide IsExchange, Started, Candidate;
    if i == 4 {
      assert Lookup(w.a.versions[4], SendIdKey(y, APP)) == Some(SentRecord(e.text));
    } else if i == 5 {
      assert AcceptedAt(w.b.versions[5], x, e.text);
    }
  }

  /** The text was committed, recorded, abandoned, and shown as given up for it. */
  function AbandonedHistory(d: Device, y: Identity, e: Exchange): ChatRun {
    var (queued, pending, given) := (Listed(ENTRY), Shown(C.EntryState.Pending, e), Shown(C.EntryState.NotDelivered, e));
    ChatRun(AbandonedRun(d, y, e),
            [C.EMPTY, queued, queued, queued, pending, pending, pending, pending, given, given],
            [C.Queue([1], [2], false), C.Idle, C.Idle, C.Advance(1, C.EntryState.Pending, Some(e.text)),
             C.Idle, C.Idle, C.Idle, C.Advance(1, C.EntryState.NotDelivered, None), C.Idle])
  }

  lemma AbandonedStep(d: Device, y: Identity, e: Exchange, i: nat)
    requires IsExchange(d.our, y, e) && i < 9
    ensures ChatStepOf(d, y, AbandonedHistory(d, y, e), i)
  {
    var cr := AbandonedHistory(d, y, e);
    hide IsExchange, Started, StagedSend, StagedReceive, Status;
    if i < 4 {
      TextStep(d, y, e, cr, i);
    } else if i == 7 {
      StatusOfText(d, y, e);
      assert W.TextId([1]) == APP;
      assert AdvanceReason(d, y, cr.run.versions, cr.chats, 1, C.EntryState.NotDelivered, None, 7, 7);
    }
  }

  lemma AbandonedIsChatRun(d: Device, y: Identity, e: Exchange)
    requires IsExchange(d.our, y, e)
    ensures IsChatRun(d, y, AbandonedHistory(d, y, e))
  {
    hide IsRun, NoCollision, ChatStepOf, IsExchange, Started, Sent, Created, Abandoned;
    var cr := AbandonedHistory(d, y, e);
    AbandonedIsRun(d, y, e);
    forall i | 0 <= i < |cr.steps|
      ensures ChatStepOf(d, y, cr, i)
    {
      AbandonedStep(d, y, e, i);
    }
  }

  lemma AbandonedEnds(da: Device, db: Device, e: Exchange)
    ensures Status(Abandoned(da, db.our, e), db.our, APP) == MessengerGuarantees.Abandoned(e.text)
    ensures DeliveryOf(map[], da.our, e.text).NotAccepted?
  {
  }

  lemma AbandonedWorlds(da: Device, db: Device, e: Exchange)
    requires da.our != db.our && IsExchange(da.our, db.our, e)
    ensures IsWorldRun(da, db, WorldRun(AbandonedRun(da, db.our, e), ResponderRun(db, da.our, e)))
    ensures IsWorldRun(da, db, WorldRun(AbandonedRun(da, db.our, e), SilentRun(da.our)))
  {
    hide IsRun, NoCollision, TogetherAt, IsExchange;
    AbandonedIsRun(da, db.our, e);
    ResponderIsRun(db, da.our, e);
    SilentIsRun(db, da.our);
    forall i | 0 <= i < 9
      ensures TogetherAt(da, db, WorldRun(AbandonedRun(da, db.our, e), ResponderRun(db, da.our, e)), i)
      ensures TogetherAt(da, db, WorldRun(AbandonedRun(da, db.our, e), SilentRun(da.our)), i)
    {
      AbandonedTogether(da, db, e, i);
    }
  }

  /** Nor does an abandoned record say that the peer has not accepted the text: with
      one and the same run of this device the peer may hold it and may not, so no
      condition on this device's records decides it. */
  lemma NothingHereTells(da: Device, db: Device) returns (held: WorldRun, lost: WorldRun, cr: ChatRun)
    requires da.our != db.our
    ensures IsWorldRun(da, db, held) && IsWorldRun(da, db, lost) && held.a == lost.a
    ensures IsChatRun(da, db.our, cr) && cr.run == held.a
    ensures |cr.chats| == 10 && 1 in cr.chats[9].entries && cr.chats[9].entries[1].state.NotDelivered?
    ensures var e := cr.chats[9].entries[1];
            && e.id.Some? && Status(held.a.versions[9], db.our, W.TextId(e.app)) == MessengerGuarantees.Abandoned(e.id.value)
            && !DeliveryOf(held.b.versions[9], da.our, e.id.value).NotAccepted?
            && DeliveryOf(lost.b.versions[9], da.our, e.id.value).NotAccepted?
  {
    hide IsRun, NoCollision, TogetherAt, ChatStepOf, IsExchange, Started, Abandoned, Answered, Status, Sent, Created, Accepted;
    var e := ExchangeExists(da.our, db.our);
    held := WorldRun(AbandonedRun(da, db.our, e), ResponderRun(db, da.our, e));
    lost := WorldRun(AbandonedRun(da, db.our, e), SilentRun(da.our));
    cr := AbandonedHistory(da, db.our, e);
    AbandonedWorlds(da, db, e);
    AbandonedIsChatRun(da, db.our, e);
    ExchangeEnds(da, db, e);
    AbandonedEnds(da, db, e);
  }
}

/** The end-to-end theorem is about runs that exist: a text is sent, delivered
    and acknowledged. */
module FirstExchange {
  import opened Prelude
  import opened RatchetFields
  import opened SymbolicKeys
  import opened RatchetModel
  import opened Staging
  import opened StoreRecords
  import opened DurableSessions
  import opened MessengerModel
  import opened MessengerGuarantees

  lemma NothingSkipped(r: RatchetState)
    requires WellFormed(r) && r.nr == 0 && |r.skipped| <= r.maxSkipped
    ensures SkipMessageKeys(r, 0) == r
  {
  }

  /** The initiator's first message opens on the responder's side, and the answer
      on the initiator's. */
  lemma FirstOpens<P>(seed: Seed, bobDh: DhKey, aliceDh: DhKey, plaintext: P, ad: Ad, nonce: nat, newDh: DhKey)
    ensures var e := StageEncrypt(InitAlice(seed, bobDh, aliceDh), plaintext, ad, nonce);
            && e.Ok?
            && var d := StageDecrypt(InitBob(seed, bobDh), e.value.header, e.value.cipher, ad, newDh);
               d.Ok? && d.value.plaintext == plaintext
  {
    var (alice, bob) := (InitAlice(seed, bobDh, aliceDh), InitBob(seed, bobDh));
    var e := StageEncrypt(alice, plaintext, ad, nonce).value;
    NothingSkipped(bob);
    NothingSkipped(DhRatchetStep(bob, aliceDh, newDh));
    assert Find(bob.skipped, e.header.dh, e.header.n) == None;
  }

  lemma AnswerOpens<P>(seed: Seed, bobDh: DhKey, aliceDh: DhKey, plaintext: P, ad: Ad, nonce: nat, newDh: DhKey,
                       answer: P, nonce': nat, newDh': DhKey)
    requires newDh != bobDh
    ensures var e := StageEncrypt(InitAlice(seed, bobDh, aliceDh), plaintext, ad, nonce).value;
            var d := StageDecrypt(InitBob(seed, bobDh), e.header, e.cipher, ad, newDh).value;
            var f := StageEncrypt(d.state, answer, ad, nonce');
            && f.Ok? && WellFormed(e.state)
            && var g := StageDecrypt(e.state, f.value.header, f.value.cipher, ad, newDh');
               g.Ok? && g.value.plaintext == answer
  {
    FirstOpens(seed, bobDh, aliceDh, plaintext, ad, nonce, newDh);
    var (alice, bob) := (InitAlice(seed, bobDh, aliceDh), InitBob(seed, bobDh));
    var e := StageEncrypt(alice, plaintext, ad, nonce).value;
    NothingSkipped(bob);
    var turned := DhRatchetStep(bob, aliceDh, newDh);
    NothingSkipped(turned);
    assert Find(bob.skipped, e.header.dh, e.header.n) == None;
    var d := StageDecrypt(bob, e.header, e.cipher, ad, newDh).value;
    assert d.state == turned.(ckr := Some(NextChain(turned.ckr.value)), nr := 1);
    var f := StageEncrypt(d.state, answer, ad, nonce').value;
    assert f.header == Header(newDh, 0, 0);
    assert Find(e.state.skipped, f.header.dh, f.header.n) == None;
    NothingSkipped(e.state);
    NothingSkipped(DhRatchetStep(e.state, newDh, newDh'));
  }

  // ── One exchange: a text, its receipt ─────────────────────────────────────

  const APP: ClientId := [116, 1]
  const RECEIPT_CLIENT: ClientId := [114]
  const TEXT: Payload := Payload.Text([2])
  const HELD := Prekeys(1, Some(2))

  function Contact(x: Identity): InitiatorHandshake {
    InitiatorHandshake(x, 3, 1, Some(2))
  }

  function Started(x: Identity, y: Identity): SessionState {
    NewInitiator(x, y, 1, Some(2), 3, 4)
  }

  /** The sessions and messages of the exchange: `a1`, `a2` are the initiator's
      session after its text and after the receipt, `b1`, `b2` the responder's. */
  datatype Exchange = Exchange(text: MessageId, receipt: MessageId, a1: SessionState, b1: SessionState,
                               b2: SessionState, a2: SessionState)

  predicate Owned(s: SessionState, our: Identity, peer: Identity, generation: U64) {
    Storable(s) && s.our == our && s.peer == peer && s.generation == generation
  }

  predicate IsExchange(x: Identity, y: Identity, e: Exchange) {
    && Owned(Started(x, y), x, y, 0) && Owned(e.a1, x, y, 1) && Owned(e.b1, y, x, 1)
    && e.a2.generation == 2 && e.b2.generation == 2 && !Established(e.a1)
    && StagedSend(Started(x, y), TEXT, 0) == Some(Closed(e.a1, e.text))
    && StagedReceive(Candidate(y, Contact(x), HELD), e.text, 5) == Some(Opened(e.b1, TEXT))
    && StagedSend(e.b1, Receipt([e.text]), 1) == Some(Closed(e.b2, e.receipt))
    && StagedReceive(e.a1, e.receipt, 7) == Some(Opened(e.a2, Receipt([e.text])))
  }

  lemma ExchangeExists(x: Identity, y: Identity) returns (e: Exchange)
    ensures IsExchange(x, y, e)
  {
    var (seed, ad) := (Handshake(x, y, 3, 1, Some(2)), Ad(x, y));
    var (s, c) := (Started(x, y), Candidate(y, Contact(x), HELD));
    FirstOpens(seed, 1, 4, TEXT, ad, 0, 5);
    var sent := StagedSend(s, TEXT, 0).value;
    var taken := StagedReceive(c, sent.wire, 5).value;
    AnswerOpens(seed, 1, 4, TEXT, ad, 0, 5, Receipt([sent.wire]), 1, 7);
    var answered := StagedSend(taken.next, Receipt([sent.wire]), 1).value;
    var read := StagedReceive(sent.next, answered.wire, 7).value;
    e := Exchange(sent.wire, answered.wire, sent.next, taken.next, answered.next, read.next);
  }
}

/** The exchange as a run of both devices and of the sender's history. */
module DeliveryHappens {
  import opened Prelude
  import opened SymbolicKeys
  import opened RatchetModel
  import opened Staging
  import opened StoreRecords
  import opened ConditionalWrites
  import opened DurableSessions
  import opened MessengerModel
  import opened MessengerInvariant
  import opened MessengerRuns
  import opened MessengerGuarantees
  import opened EndToEnd
  import opened EndToEndRuns
  import opened FirstExchange
  import C = ChatModel
  import ChatRuns
  import W = WireCodec

  // The initiator's store: the session created, the text sent, the receipt
  // received, the text acknowledged.

  function Created(d: Device, y: Identity): Contents {
    map[SessionKey(y) := SessionRecord(Started(d.our, y)),
        HandleKey(d.handleOf(y)) := HandleRecord(y),
        HandshakeKey(y) := HandshakeRecord(Contact(d.our))]
  }

  function Sent(d: Device, y: Identity, e: Exchange): Contents {
    Created(d, y)[SessionKey(y) := SessionRecord(e.a1)]
                 [OutboxKey(y, e.text) := OutboxRecord(OutgoingMessage(e.text, APP, 1, e.text))]
                 [SendIdKey(y, APP) := SentRecord(e.text)]
  }

  function Receipted(d: Device, y: Identity, e: Exchange): Contents {
    Sent(d, y, e)[SessionKey(y) := SessionRecord(e.a2)]
                 [InboxKey(y, e.receipt) := InboxRecord(IncomingMessage(e.receipt, 2, Receipt([e.text])))]
  }

  function Acked(d: Device, y: Identity, e: Exchange): Contents {
    Receipted(d, y, e) - {OutboxKey(y, e.text)}
  }

  // The responder's: the prekeys published, the handshake recorded, the text
  // accepted, the receipt sent.

  function Published(): Contents {
    map[PrekeysKey := PrekeyRecord(HELD)]
  }

  function Contacted(d: Device, x: Identity): Contents {
    Published()[ProvisionalKey(d.handleOf(x)) := ProvisionalRecord(x, Contact(x))]
  }

  function Accepted(d: Device, x: Identity, e: Exchange): Contents {
    (Contacted(d, x)[SessionKey(x) := SessionRecord(e.b1)][HandleKey(d.handleOf(x)) := HandleRecord(x)]
     - {ProvisionalKey(d.handleOf(x))})
    [InboxKey(x, e.text) := InboxRecord(IncomingMessage(e.text, 1, TEXT))]
    [PrekeysKey := PrekeyRecord(Prekeys(1, Some(6)))]
  }

  function Answered(d: Device, x: Identity, e: Exchange): Contents {
    Accepted(d, x, e)[SessionKey(x) := SessionRecord(e.b2)]
                     [OutboxKey(x, e.receipt) := OutboxRecord(OutgoingMessage(e.receipt, RECEIPT_CLIENT, 2, e.receipt))]
                     [SendIdKey(x, RECEIPT_CLIENT) := SentRecord(e.receipt)]
  }

  const NEXT: seq<nat> := [1, 3, 5, 5, 5, 7, 7, 8, 8, 8]

  /** The other device acts: nothing is kept here. */
  function Idle(p: Identity): Event {
    Event(RecordHandshake(p, MalformedHandshake([])), FailsBefore, 0, 0)
  }

  function InitiatorVersion(d: Device, y: Identity, e: Exchange, i: nat): Contents {
    if i < 2 then map[] else if i == 2 then Created(d, y) else if i < 7 then Sent(d, y, e)
    else if i == 7 then Receipted(d, y, e) else Acked(d, y, e)
  }

  function InitiatorEvent(d: Device, y: Identity, e: Exchange, i: nat): Event {
    match i
    case 1 => Event(Create(y, 1, Some(2), 3, 4), NoFault, 0, 0)
    case 2 => Event(Send(d.handleOf(y), y, Started(d.our, y), APP, TEXT, 0), NoFault, 2, 2)
    case 6 => Event(Receive(e.a1, e.receipt, 7), NoFault, 0, 0)
    case 7 => Event(AckOut(y, e.text), NoFault, 0, 0)
    case _ => Idle(y)
  }

  function InitiatorRun(d: Device, y: Identity, e: Exchange): Run {
    Run(seq(10, (i: nat) => InitiatorVersion(d, y, e, i)), NEXT, seq(9, (i: nat) => InitiatorEvent(d, y, e, i)))
  }

  function ResponderVersion(d: Device, x: Identity, e: Exchange, i: nat): Contents {
    if i == 0 then map[] else if i < 4 then Published() else if i == 4 then Contacted(d, x)
    else if i == 5 then Accepted(d, x, e) else Answered(d, x, e)
  }

  function ResponderEvent(d: Device, x: Identity, e: Exchange, i: nat): Event {
    match i
    case 0 => Event(EstablishPrekeys(1, 2), NoFault, 0, 0)
    case 3 => Event(RecordHandshake(x, Contact(x)), NoFault, 0, 0)
    case 4 => Event(Accept(x, Contact(x), HELD, e.text, 5, 6), NoFault, 0, 0)
    case 5 => Event(Send(d.handleOf(x), x, e.b1, RECEIPT_CLIENT, Receipt([e.text]), 1), NoFault, 5, 5)
    case _ => Idle(x)
  }

  function ResponderRun(d: Device, x: Identity, e: Exchange): Run {
    Run(seq(10, (i: nat) => ResponderVersion(d, x, e, i)), NEXT, seq(9, (i: nat) => ResponderEvent(d, x, e, i)))
  }

  /** The transaction takes `c` to `after`. */
  predicate Leads(d: Device, next: nat, c: Contents, tx: Tx, after: Contents) {
    Formed(d, next, tx) && After(d, next, c, tx, NoFault) == after
  }

  ghost predicate Shaped(r: Run, i: nat) {
    |r.versions| == |r.next| == |r.events| + 1 && i < |r.events| && r.next[i] <= r.next[i + 1]
  }

  lemma TakenStep(d: Device, r: Run, i: nat)
    requires Shaped(r, i) && r.events[i].fault.NoFault? && Reads(r.versions, i, r.events[i])
    requires Leads(d, r.next[i], r.versions[i], r.events[i].tx, r.versions[i + 1])
    requires NextAfter(r.next[i], r.events[i].tx) <= r.next[i + 1]
    ensures StepOf(d, r, i)
  {
    hide Formed, After, Reads, NextAfter;
  }

  lemma IdleStep(d: Device, r: Run, i: nat, p: Identity)
    requires Shaped(r, i) && r.events[i] == Idle(p) && r.versions[i + 1] == r.versions[i]
    ensures StepOf(d, r, i)
  {
  }

  lemma CreateLeads(d: Device, y: Identity, e: Exchange)
    ensures Leads(d, 3, map[], Create(y, 1, Some(2), 3, 4), Created(d, y))
  {
  }

  lemma TextLeads(d: Device, y: Identity, e: Exchange)
    requires IsExchange(d.our, y, e)
    ensures Leads(d, 5, Created(d, y), Send(d.handleOf(y), y, Started(d.our, y), APP, TEXT, 0), Sent(d, y, e))
  {
    hide StagedSend, StagedReceive, Storable, Candidate, Started;
    assert Started(d.our, y).generation == 0;
  }

  lemma ReceiptLeads(d: Device, y: Identity, e: Exchange)
    requires IsExchange(d.our, y, e)
    ensures Leads(d, 7, Sent(d, y, e), Receive(e.a1, e.receipt, 7), Receipted(d, y, e))
  {
    hide StagedSend, StagedReceive, Storable, Candidate, Started;
  }

  lemma AckLeads(d: Device, y: Identity, e: Exchange)
    ensures Leads(d, 8, Receipted(d, y, e), AckOut(y, e.text), Acked(d, y, e))
  {
  }

  lemma PublishLeads(d: Device)
    ensures Leads(d, 1, map[], EstablishPrekeys(1, 2), Published())
  {
  }

  lemma ContactLeads(d: Device, x: Identity)
    ensures Leads(d, 5, Published(), RecordHandshake(x, Contact(x)), Contacted(d, x))
  {
  }

  lemma AcceptLeads(d: Device, x: Identity, e: Exchange)
    requires IsExchange(x, d.our, e)
    ensures Leads(d, 5, Contacted(d, x), Accept(x, Contact(x), HELD, e.text, 5, 6), Accepted(d, x, e))
  {
    hide StagedSend, StagedReceive, Storable, Candidate, Started;
  }

  lemma AnswerLeads(d: Device, x: Identity, e: Exchange)
    requires IsExchange(x, d.our, e)
    ensures Leads(d, 7, Accepted(d, x, e), Send(d.handleOf(x), x, e.b1, RECEIPT_CLIENT, Receipt([e.text]), 1), Answered(d, x, e))
  {
    hide StagedSend, StagedReceive, Storable, Candidate, Started;
  }

  lemma EmptyIsSound(d: Device)
    ensures Inv(d, 1, map[])
  {
  }

  lemma NoIdleSend(d: Device, r: Run, p: Identity)
    requires |r.versions| == |r.next| == |r.events| + 1
    requires forall i :: 0 <= i < |r.events| ==> r.events[i].tx.Send? ==> r.events[i].tx.index == p && r.events[i].tx.base.peer == p
    ensures NoCollision(d, r)
  {
  }

  lemma HandlesShow(d: Device, p: Identity, e: Exchange)
    ensures Lookup(Created(d, p), HandleKey(d.handleOf(p))) == Some(HandleRecord(p))
    ensures Lookup(Accepted(d, p, e), HandleKey(d.handleOf(p))) == Some(HandleRecord(p))
    ensures Started(d.our, p).peer == p
  {
  }

  lemma ResponderOwns(d: Device, x: Identity, e: Exchange)
    requires IsExchange(x, d.our, e)
    ensures e.b1.peer == x
  {
  }

  lemma InitiatorStarts(d: Device, y: Identity, e: Exchange)
    requires IsExchange(d.our, y, e)
    ensures StepOf(d, InitiatorRun(d, y, e), 1) && StepOf(d, InitiatorRun(d, y, e), 2)
  {
    hide Leads, Created, Sent, Receipted, Acked, IsExchange, Started, StepOf, Formed, After, Fires, Effect, ListedEmpty;
    CreateLeads(d, y, e);
    TextLeads(d, y, e);
    HandlesShow(d, y, e);
    var r := InitiatorRun(d, y, e);
    TakenStep(d, r, 1);
    TakenStep(d, r, 2);
  }

  lemma InitiatorEnds(d: Device, y: Identity, e: Exchange)
    requires IsExchange(d.our, y, e)
    ensures StepOf(d, InitiatorRun(d, y, e), 6) && StepOf(d, InitiatorRun(d, y, e), 7)
  {
    hide Leads, Created, Sent, Receipted, Acked, IsExchange, Started, StepOf, Formed, After, Fires, Effect, ListedEmpty;
    ReceiptLeads(d, y, e);
    AckLeads(d, y, e);
    var r := InitiatorRun(d, y, e);
    TakenStep(d, r, 6);
    TakenStep(d, r, 7);
  }

  lemma InitiatorIsRun(d: Device, y: Identity, e: Exchange)
    requires IsExchange(d.our, y, e)
    ensures IsRun(d, InitiatorRun(d, y, e)) && NoCollision(d, InitiatorRun(d, y, e))
  {
    hide Created, Sent, Receipted, Acked, IsExchange, Started, Inv, StepOf, Formed, After, Fires, Effect, Reads, NextAfter;
    HandlesShow(d, y, e);
    var r := InitiatorRun(d, y, e);
    InitiatorStarts(d, y, e);
    InitiatorEnds(d, y, e);
    forall i | 0 <= i < 9
      ensures StepOf(d, r, i)
    {
      if i !in {1, 2, 6, 7} {
        IdleStep(d, r, i, y);
      }
    }
    EmptyIsSound(d);
    NoIdleSend(d, r, y);
  }

  lemma ResponderStarts(d: Device, x: Identity, e: Exchange)
    ensures StepOf(d, ResponderRun(d, x, e), 0) && StepOf(d, ResponderRun(d, x, e), 3)
  {
    hide Leads, Published, Contacted, Accepted, Answered, IsExchange, StepOf, Formed, After, Fires, Effect, ListedEmpty;
    PublishLeads(d);
    ContactLeads(d, x);
    var r := ResponderRun(d, x, e);
    TakenStep(d, r, 0);
    TakenStep(d, r, 3);
  }

  lemma ResponderEnds(d: Device, x: Identity, e: Exchange)
    requires IsExchange(x, d.our, e)
    ensures StepOf(d, ResponderRun(d, x, e), 4) && StepOf(d, ResponderRun(d, x, e), 5)
  {
    hide Leads, Published, Contacted, Accepted, Answered, IsExchange, StepOf, Formed, After, Fires, Effect, ListedEmpty;
    AcceptLeads(d, x, e);
    AnswerLeads(d, x, e);
    HandlesShow(d, x, e);
    ResponderOwns(d, x, e);
    var r := ResponderRun(d, x, e);
    TakenStep(d, r, 4);
    TakenStep(d, r, 5);
  }

  lemma ResponderIsRun(d: Device, x: Identity, e: Exchange)
    requires IsExchange(x, d.our, e)
    ensures IsRun(d, ResponderRun(d, x, e)) && NoCollision(d, ResponderRun(d, x, e))
  {
    hide Published, Contacted, Accepted, Answered, IsExchange, Inv, StepOf, Formed, After, Fires, Effect, Reads, NextAfter;
    ResponderOwns(d, x, e);
    var r := ResponderRun(d, x, e);
    ResponderStarts(d, x, e);
    ResponderEnds(d, x, e);
    forall i | 0 <= i < 9
      ensures StepOf(d, r, i)
    {
      if i !in {0, 3, 4, 5} {
        IdleStep(d, r, i, x);
      }
    }
    EmptyIsSound(d);
    NoIdleSend(d, r, x);
  }

  function Together(da: Device, db: Device, e: Exchange): WorldRun {
    WorldRun(InitiatorRun(da, db.our, e), ResponderRun(db, da.our, e))
  }

  lemma TogetherAtEach(da: Device, db: Device, e: Exchange, i: nat)
    requires IsExchange(da.our, db.our, e) && i < 9
    ensures TogetherAt(da, db, Together(da, db, e), i)
  {
    var (x, y, w) := (da.our, db.our, Together(da, db, e));
    hide IsExchange, Started, Candidate;
    if i == 4 {
      assert Lookup(w.a.versions[4], SendIdKey(y, APP)) == Some(SentRecord(e.text));
    } else if i == 5 {
      assert AcceptedAt(w.b.versions[5], x, e.text);
    } else if i == 6 {
      assert Lookup(w.b.versions[6], SendIdKey(x, RECEIPT_CLIENT)) == Some(SentRecord(e.receipt));
    } else if i == 7 {
      assert InboxKey(y, e.receipt) in w.a.versions[7];
      assert ReadReceipt(w.a.versions[7], y, e.text);
    }
  }

  lemma TogetherIsRun(da: Device, db: Device, e: Exchange)
    requires da.our != db.our && IsExchange(da.our, db.our, e)
    ensures IsWorldRun(da, db, Together(da, db, e))
  {
    InitiatorIsRun(da, db.our, e);
    ResponderIsRun(db, da.our, e);
    var w := Together(da, db, e);
    forall i | 0 <= i < |w.a.events|
      ensures TogetherAt(da, db, w, i)
    {
      TogetherAtEach(da, db, e, i);
    }
    hide IsRun, NoCollision, TogetherAt, IsExchange;
  }

  // ── The history beside it ─────────────────────────────────────────────────

  const ENTRY := C.Entry(true, C.EntryState.Queued, [1], None, [2])

  function Listed(e: C.Entry): C.Chat {
    C.Chat(1, map[1 := e], map[[1] := 1], map[], {})
  }

  /** The text is queued, sent, and shown as delivered once its send record reads
      acknowledged. */
  function HistoryOf(d: Device, y: Identity, e: Exchange): ChatRuns.ChatRun {
    var (queued, delivered) := (Listed(ENTRY), Listed(ENTRY.(state := C.EntryState.Delivered, id := Some(e.text))));
    ChatRuns.ChatRun(InitiatorRun(d, y, e),
                     [C.EMPTY, queued, queued, queued, queued, queued, queued, queued, queued, delivered],
                     [C.Queue([1], [2], false), C.Idle, C.Idle, C.Idle, C.Idle, C.Idle, C.Idle, C.Idle,
                      C.Advance(1, C.EntryState.Delivered, Some(e.text))])
  }

  lemma HistoryStep(d: Device, y: Identity, e: Exchange, i: nat)
    requires IsExchange(d.our, y, e) && i < 9
    ensures ChatRuns.ChatStepOf(d, y, HistoryOf(d, y, e), i)
  {
    var cr := HistoryOf(d, y, e);
    hide IsExchange, Started, Candidate;
    assert W.TextId([1]) == APP;
    if i == 0 {
      assert Status(cr.run.versions[0], y, APP).NotSent?;
      assert ChatRuns.Justified(d, y, cr.run.versions, cr.chats, 0, cr.steps[0]);
    } else if i == 2 {
      assert APP[1..] == [1];
      assert ChatRuns.SendsEntry(cr.chats[1], APP[1..], TEXT);
    } else if i == 8 {
      assert Status(cr.run.versions[8], y, APP) == Acknowledged(e.text);
      assert ChatRuns.Reason(y, cr.run.versions[8], cr.chats[8].entries[1], C.EntryState.Delivered, Some(e.text));
      assert ChatRuns.AdvanceReason(d, y, cr.run.versions, cr.chats, 1, C.EntryState.Delivered, Some(e.text), 8, 8);
    }
  }

  /** The theorems about runs of two devices speak of runs that exist: between any
      two devices there is one in which a text ends up shown as delivered. */
  lemma DeliveryIsReachable(da: Device, db: Device) returns (w: WorldRun, cr: ChatRuns.ChatRun)
    requires da.our != db.our
    ensures IsWorldRun(da, db, w) && ChatRuns.IsChatRun(da, db.our, cr) && cr.run == w.a
    ensures |cr.chats| == 10 && 1 in cr.chats[9].entries && cr.chats[9].entries[1].state.Delivered?
  {
    var e := ExchangeExists(da.our, db.our);
    w, cr := Together(da, db, e), HistoryOf(da, db.our, e);
    TogetherIsRun(da, db, e);
    InitiatorIsRun(da, db.our, e);
    forall i | 0 <= i < |cr.steps|
      ensures ChatRuns.ChatStepOf(da, db.our, cr, i)
    {
      HistoryStep(da, db.our, e, i);
    }
    hide IsRun, NoCollision, IsWorldRun, ChatRuns.ChatStepOf, IsExchange, Started;
  }
}

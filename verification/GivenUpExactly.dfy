/** When a committed text can still be acknowledged: exactly, over every way the
    run can go on. */
module StillAcknowledged {
  import opened Prelude
  import opened RatchetFields
  import opened SymbolicKeys
  import opened RatchetModel
  import opened Staging
  import opened StoreRecords
  import opened ConditionalWrites
  import opened DurableSessions
  import opened MessengerModel
  import opened MessengerInvariant
  import opened MessengerRuns
  import opened MessengerGuarantees
  import opened EndToEnd
  import opened EndToEndRuns
  import N = NetworkRules

  /** Every event keeps the network layer's rule towards `y`. */
  ghost predicate Ruled(y: Identity, r: Run) {
    |r.versions| == |r.events| + 1 && forall i :: 0 <= i < |r.events| ==> RuleAt(y, r.versions, i, r.events[i].tx)
  }

  predicate Extends(r: Run, r': Run) {
    r.versions <= r'.versions && r.next <= r'.next && r.events <= r'.events
  }

  function Latest(r: Run): Contents
    requires |r.versions| > 0
  {
    r.versions[|r.versions| - 1]
  }

  /** Some version shows a receipt of `y` for the message. */
  ghost predicate ReceiptRead(y: Identity, versions: seq<Contents>, id: MessageId) {
    exists k :: 0 <= k < |versions| && ReadReceipt(versions[k], y, id)
  }

  /** The session can take no further transition. */
  predicate Exhausted(c: Contents, y: Identity) {
    SessionKey(y) in c && c[SessionKey(y)].SessionRecord? && c[SessionKey(y)].session.generation == U64_MAX
  }

  /** Whether a message can be acknowledged from here on. */
  ghost predicate StillOpen(c: Contents, y: Identity, versions: seq<Contents>, status: SendStatus) {
    || status.Acknowledged?
    || (status.Pending? && (!Exhausted(c, y) || ReceiptRead(y, versions, status.message.id)))
  }

  // ── One more event ────────────────────────────────────────────────────────

  function Extended(d: Device, r: Run, tx: Tx): Run
    requires |r.versions| == |r.next| == |r.events| + 1 && Formed(d, r.next[|r.events|], tx)
  {
    var n := |r.events|;
    Run(r.versions + [After(d, r.next[n], r.versions[n], tx, NoFault)], r.next + [NextAfter(r.next[n], tx)],
        r.events + [Event(tx, NoFault, 0, 0)])
  }

  lemma ExtendedIsRun(d: Device, y: Identity, r: Run, tx: Tx)
    requires IsRun(d, r) && NoCollision(d, r) && Ruled(y, r) && (tx.Receive? || tx.AckOut?)
    requires Formed(d, r.next[|r.events|], tx) && RuleAt(y, r.versions, |r.events|, tx)
    ensures var r' := Extended(d, r, tx);
            IsRun(d, r') && NoCollision(d, r') && Ruled(y, r') && Extends(r, r')
  {
    hide Formed, After, Inv, RuleAt, Fires;
    var r' := Extended(d, r, tx);
    NamesGrow(d, r.next[|r.events|], tx);
    forall i | 0 <= i < |r'.events|
      ensures StepOf(d, r', i)
    {
      if i < |r.events| {
        StepKept(d, r, r', i);
      }
    }
    forall i | 0 <= i < |r'.events|
      ensures RuleAt(y, r'.versions, i, r'.events[i].tx)
    {
      N.RuleLater(y, r.versions, r'.versions, i, r'.events[i].tx);
    }
  }

  lemma NamesGrow(d: Device, next: nat, tx: Tx)
    requires Formed(d, next, tx)
    ensures next <= NextAfter(next, tx)
  {
  }

  lemma StepKept(d: Device, r: Run, r': Run, i: nat)
    requires IsRun(d, r) && i < |r.events| && Extends(r, r') && |r'.versions| == |r'.next| == |r'.events| + 1
    ensures StepOf(d, r', i)
  {
    hide Formed, After, Inv, NoPending;
    assert StepOf(d, r, i);
    assert r'.versions[i] == r.versions[i] && r'.versions[i + 1] == r.versions[i + 1];
    assert forall k :: 0 <= k <= i ==> r'.versions[k] == r.versions[k];
  }

  // ── A receipt that can still arrive ───────────────────────────────────────

  lemma {:induction false} Above(s: set<nat>) returns (n: nat)
    ensures forall x :: x in s ==> x < n
    decreases |s|
  {
    if s == {} {
      n := 0;
    } else {
      var x :| x in s;
      var m := Above(s - {x});
      n := if m <= x then x + 1 else m;
      forall z | z in s
        ensures z < n
      {
        assert z == x || z in s - {x};
      }
    }
  }

  /** What a peer that starts a new chain under `dh` sends first. */
  function AnswerWire(base: SessionState, plaintext: Payload, dh: DhKey): MessageId {
    var header := Header(dh, 0, 0);
    var chain := KdfRk(base.ratchet.rk, DiffieHellman(base.ratchet.dhs, dh)).1;
    Wire(header, Sealed(KdfCk(chain).1, base.ad, header, 0, plaintext))
  }

  lemma AnswerOpens(base: SessionState, plaintext: Payload, dh: DhKey, newDh: DhKey)
    requires Structural(base.ratchet) && base.generation < U64_MAX && base.ratchet.dhr != Some(dh)
    requires forall i :: 0 <= i < |base.ratchet.skipped| ==> base.ratchet.skipped[i].dh != dh
    ensures var taken := StagedReceive(base, AnswerWire(base, plaintext, dh), newDh);
            taken.Some? && taken.value.plaintext == plaintext
  {
    var r := base.ratchet;
    var w := AnswerWire(base, plaintext, dh);
    assert Find(r.skipped, dh, 0) == None;
    SkipNothing(r);
    SkipNothing(DhRatchetStep(r, dh, newDh));
  }

  lemma SkipNothing(r: RatchetState)
    requires WellFormed(r) && |r.skipped| <= r.maxSkipped
    ensures SkipMessageKeys(r, 0) == r
  {
  }

  /** A key no row of the store and no skipped key names. */
  lemma FreshKey(c: Contents, s: SessionState) returns (dh: DhKey)
    ensures s.ratchet.dhr != Some(dh) && forall i :: 0 <= i < |s.ratchet.skipped| ==> s.ratchet.skipped[i].dh != dh
    ensures forall p, id: MessageId :: InboxKey(p, id) in c || SeenKey(p, id) in c ==> id.header.dh != dh
  {
    var inbox := set key | key in c.Keys && key.InboxKey? :: key.id.header.dh;
    var seen := set key | key in c.Keys && key.SeenKey? :: key.id.header.dh;
    var skipped := set i | 0 <= i < |s.ratchet.skipped| :: s.ratchet.skipped[i].dh;
    dh := Above(inbox + seen + skipped + (if s.ratchet.dhr.Some? then {s.ratchet.dhr.value} else {}));
    forall p, id: MessageId | InboxKey(p, id) in c || SeenKey(p, id) in c
      ensures id.header.dh != dh
    {
      assert InboxKey(p, id) in c ==> InboxKey(p, id) in c.Keys && id.header.dh in inbox;
      assert SeenKey(p, id) in c ==> SeenKey(p, id) in c.Keys && id.header.dh in seen;
    }
    forall i | 0 <= i < |s.ratchet.skipped|
      ensures s.ratchet.skipped[i].dh != dh
    {
      assert s.ratchet.skipped[i].dh in skipped;
    }
  }

  // ── The receipt read, the message acknowledged ────────────────────────────

  lemma AckMoves(d: Device, next: nat, c: Contents, y: Identity, client: ClientId)
    requires Inv(d, next, c) && Status(c, y, client).Pending?
    ensures var id := Status(c, y, client).message.id;
            Formed(d, next, AckOut(y, id)) && Status(After(d, next, c, AckOut(y, id), NoFault), y, client) == Acknowledged(id)
  {
  }

  /** With its receipt read, a pending message can be acknowledged at once. */
  lemma AcknowledgeNow(d: Device, y: Identity, r: Run, client: ClientId) returns (r': Run)
    requires IsRun(d, r) && NoCollision(d, r) && Ruled(y, r) && Status(Latest(r), y, client).Pending?
    requires ReceiptRead(y, r.versions, Status(Latest(r), y, client).message.id)
    ensures IsRun(d, r') && NoCollision(d, r') && Ruled(y, r') && Extends(r, r') && SendsNothing(r, r')
    ensures Status(Latest(r'), y, client).Acknowledged?
  {
    hide Formed, After, Status, Inv, StepOf, ReadReceipt, ReadOwnReceipt;
    var (n, id) := (|r.events|, Status(Latest(r), y, client).message.id);
    InvAt(d, r, n);
    AckMoves(d, r.next[n], r.versions[n], y, client);
    var k :| 0 <= k < |r.versions| && ReadReceipt(r.versions[k], y, id);
    ExtendedIsRun(d, y, r, AckOut(y, id));
    r' := Extended(d, r, AckOut(y, id));
  }

  /** Nothing is sent beyond `r`. */
  predicate SendsNothing(r: Run, r': Run) {
    forall i :: |r.events| <= i < |r'.events| ==> !r'.events[i].tx.Send?
  }

  lemma ReceiptMoves(d: Device, next: nat, c: Contents, y: Identity, client: ClientId, dh: DhKey)
    requires Inv(d, next, c) && Status(c, y, client).Pending? && !Exhausted(c, y)
    requires SessionKey(y) in c && c[SessionKey(y)].SessionRecord?
    requires var r := c[SessionKey(y)].session.ratchet;
             r.dhr != Some(dh) && forall i :: 0 <= i < |r.skipped| ==> r.skipped[i].dh != dh
    requires forall p, id: MessageId :: InboxKey(p, id) in c || SeenKey(p, id) in c ==> id.header.dh != dh
    ensures var (s, m) := (c[SessionKey(y)].session, Status(c, y, client).message);
            var tx := Receive(s, AnswerWire(s, Receipt([m.id]), dh), next);
            && Formed(d, next, tx)
            && Status(After(d, next, c, tx, NoFault), y, client) == Pending(m)
            && ReadReceipt(After(d, next, c, tx, NoFault), y, m.id)
  {
    var (s, m) := (c[SessionKey(y)].session, Status(c, y, client).message);
    var w := AnswerWire(s, Receipt([m.id]), dh);
    assert GoodSession(d, next, y, s);
    StoredIsStorable(d, next, y, s);
    AnswerOpens(s, Receipt([m.id]), dh, next);
    hide StagedReceive, Storable, GoodSession, Inv, Structural;
    var after := After(d, next, c, Receive(s, w, next), NoFault);
    assert w.header.dh == dh;
    assert InboxKey(y, w) in after && after[InboxKey(y, w)].InboxRecord?
           && after[InboxKey(y, w)].incoming.plaintext == Receipt([m.id]);
    assert m.id in [m.id];
  }

  lemma StoredIsStorable(d: Device, next: nat, y: Identity, s: SessionState)
    requires GoodSession(d, next, y, s) && s.generation <= U64_MAX
    ensures Storable(s)
  {
  }

  /** With generations left, the peer's receipt can still arrive. */
  lemma ReceiveNow(d: Device, y: Identity, r: Run, client: ClientId) returns (r': Run)
    requires IsRun(d, r) && NoCollision(d, r) && Ruled(y, r) && Status(Latest(r), y, client).Pending?
    requires !Exhausted(Latest(r), y)
    ensures IsRun(d, r') && NoCollision(d, r') && Ruled(y, r') && Extends(r, r') && SendsNothing(r, r')
    ensures Status(Latest(r'), y, client) == Status(Latest(r), y, client)
    ensures ReceiptRead(y, r'.versions, Status(Latest(r), y, client).message.id)
  {
    hide Formed, After, Status, Inv, StepOf, ReadReceipt, StagedReceive, AnswerWire, Exhausted;
    var (n, c) := (|r.events|, Latest(r));
    InvAt(d, r, n);
    PendingHasSession(d, r.next[n], c, y, client);
    var s := c[SessionKey(y)].session;
    var dh := FreshKey(c, s);
    ReceiptMoves(d, r.next[n], c, y, client, dh);
    var tx := Receive(s, AnswerWire(s, Receipt([Status(c, y, client).message.id]), dh), r.next[n]);
    ExtendedIsRun(d, y, r, tx);
    r' := Extended(d, r, tx);
    assert ReadReceipt(r'.versions[n + 1], y, Status(c, y, client).message.id);
  }

  lemma PendingHasSession(d: Device, next: nat, c: Contents, y: Identity, client: ClientId)
    requires Inv(d, next, c) && Status(c, y, client).Pending?
    ensures SessionKey(y) in c && c[SessionKey(y)].SessionRecord?
  {
  }

  /** What is open can be carried through. */
  lemma Acknowledgeable(d: Device, y: Identity, r: Run, client: ClientId) returns (r': Run)
    requires IsRun(d, r) && NoCollision(d, r) && Ruled(y, r)
    requires StillOpen(Latest(r), y, r.versions, Status(Latest(r), y, client))
    ensures IsRun(d, r') && NoCollision(d, r') && Ruled(y, r') && Extends(r, r') && SendsNothing(r, r')
    ensures Status(Latest(r'), y, client).Acknowledged?
  {
    hide IsRun, NoCollision, Ruled, Status, Exhausted, ReceiptRead;
    RunHasVersions(d, r);
    r' := r;
    if Status(Latest(r), y, client).Pending? {
      if !ReceiptRead(y, r.versions, Status(Latest(r), y, client).message.id) {
        r' := ReceiveNow(d, y, r, client);
        RunHasVersions(d, r');
      }
      var mid := r';
      r' := AcknowledgeNow(d, y, mid, client);
      RunHasVersions(d, r');
    }
  }

  lemma RunHasVersions(d: Device, r: Run)
    requires IsRun(d, r)
    ensures |r.versions| == |r.next| == |r.events| + 1
  {
  }

  // ── What is closed stays closed ───────────────────────────────────────────

  /** The message is abandoned; or its session is exhausted, and no receipt for it
      was read up to version `i`. */
  ghost predicate ClosedUpTo(y: Identity, versions: seq<Contents>, i: nat, client: ClientId, m: OutgoingMessage)
    requires i < |versions|
  {
    || Status(versions[i], y, client) == Abandoned(m.id)
    || (Status(versions[i], y, client) == Pending(m) && Exhausted(versions[i], y)
        && forall k :: 0 <= k <= i ==> !ReadReceipt(versions[k], y, m.id))
  }

  /** An exhausted session neither moves nor goes away while something is pending
      on it, and nothing more is accepted on it. */
  lemma ExhaustedStep(d: Device, next: nat, c: Contents, tx: Tx, fault: Fault, y: Identity, client: ClientId)
    requires Inv(d, next, c) && Formed(d, next, tx)
    requires Fires(d, next, c, tx) ==> Safe(c, tx)
    requires Status(c, y, client).Pending? && Exhausted(c, y)
    ensures var after := After(d, next, c, tx, fault);
            && Exhausted(after, y)
            && forall id :: InboxKey(y, id) in after ==> InboxKey(y, id) in c && after[InboxKey(y, id)] == c[InboxKey(y, id)]
  {
    hide SendIds, DistinctPositions, Handles, Handshakes, Provisionals, HeldPrekeys, Candidate, CheckAnswerable, StageEncrypt,
         StageDecrypt, NewInitiator;
    assert !NoPending(c, y) by {
      assert OutboxKey(y, Status(c, y, client).message.id) in c;
    }
  }

  /** Only an acknowledgement of that very message acknowledges it. */
  lemma AcknowledgedBy(d: Device, next: nat, c: Contents, tx: Tx, fault: Fault, y: Identity, client: ClientId, m: OutgoingMessage)
    requires Inv(d, next, c) && Formed(d, next, tx) && Status(c, y, client) == Pending(m)
    ensures Status(After(d, next, c, tx, fault), y, client).Acknowledged? ==> tx == AckOut(y, m.id)
  {
    hide SessionRows, Incoming, StagedReceive, Candidate, CheckAnswerable;
  }

  lemma PendingAs(d: Device, next: nat, c: Contents, y: Identity, client: ClientId, m: OutgoingMessage)
    requires Inv(d, next, c) && Status(c, y, client) == Pending(m)
    ensures m.client == client && OutboxKey(y, m.id) in c && c[OutboxKey(y, m.id)] == OutboxRecord(m)
  {
    StatusIsSound(d, next, c, y, client);
  }

  lemma ClosedStays(d: Device, y: Identity, r: Run, i: nat, client: ClientId, m: OutgoingMessage)
    requires IsRun(d, r) && NoCollision(d, r) && Ruled(y, r) && i < |r.events|
    requires ClosedUpTo(y, r.versions, i, client, m) && !ReceiptClient(client)
    ensures ClosedUpTo(y, r.versions, i + 1, client, m)
  {
    hide Inv, Formed, Fires, After, Reads, Status, Exhausted, ReadReceipt, RuleAt, NoCollision, ReadOwnReceipt, Safe;
    StepAt(d, r, i);
    var (c, e) := (r.versions[i], r.events[i]);
    StatusOnlyMovesForward(d, r, i, i + 1, y, client);
    if Status(c, y, client) == Pending(m) {
      ExhaustedStep(d, r.next[i], c, e.tx, e.fault, y, client);
      AcknowledgedBy(d, r.next[i], c, e.tx, e.fault, y, client, m);
      ReceiptsKept(y, c, r.versions[i + 1], m.id);
      if e.tx == AckOut(y, m.id) {
        NotRuled(d, y, r, i, client, m);
        assert false;
      }
    }
  }

  lemma ReceiptsKept(y: Identity, c: Contents, after: Contents, id: MessageId)
    requires forall row :: InboxKey(y, row) in after ==> InboxKey(y, row) in c && after[InboxKey(y, row)] == c[InboxKey(y, row)]
    ensures ReadReceipt(after, y, id) ==> ReadReceipt(c, y, id)
  {
  }

  /** Without a receipt the rule does not let a text be acknowledged. */
  lemma NotRuled(d: Device, y: Identity, r: Run, i: nat, client: ClientId, m: OutgoingMessage)
    requires IsRun(d, r) && NoCollision(d, r) && i < |r.events| && Status(r.versions[i], y, client) == Pending(m)
    requires forall k :: 0 <= k <= i ==> !ReadReceipt(r.versions[k], y, m.id)
    requires !ReceiptClient(client)
    ensures !RuleAt(y, r.versions, i, AckOut(y, m.id))
  {
    hide Inv, StepOf, Status, NoCollision;
    InvAt(d, r, i);
    PendingAs(d, r.next[i], r.versions[i], y, client, m);
    forall k | 0 <= k <= i
      ensures !ReadOwnReceipt(r.versions[k], y, m.id)
    {
      if ReadOwnReceipt(r.versions[k], y, m.id) {
        OwnReceiptOnly(d, r, k, i, y, m.id);
      }
    }
  }

  lemma {:induction false} ClosedForever(d: Device, y: Identity, r: Run, i: nat, j: nat, client: ClientId, m: OutgoingMessage)
    requires IsRun(d, r) && NoCollision(d, r) && Ruled(y, r) && i <= j < |r.versions|
    requires ClosedUpTo(y, r.versions, i, client, m) && !ReceiptClient(client)
    ensures ClosedUpTo(y, r.versions, j, client, m)
  {
    hide IsRun, NoCollision, Ruled, ClosedUpTo;
    if i < j {
      ClosedForever(d, y, r, i, j - 1, client, m);
      RunHasVersions(d, r);
      ClosedStays(d, y, r, j - 1, client, m);
    }
  }
}

/** What an entry of the history says about the rest of the run. */
module NotDeliveredMeans {
  import opened Prelude
  import opened SymbolicKeys
  import opened StoreRecords
  import opened MessengerModel
  import opened MessengerInvariant
  import opened MessengerRuns
  import opened MessengerGuarantees
  import opened EndToEnd
  import opened EndToEndRuns
  import opened ChatRuns
  import opened StillAcknowledged
  import C = ChatModel
  import W = WireCodec

  /** Any way the conversation can go on. */
  ghost predicate Continues(d: Device, y: Identity, cr: ChatRun, cr': ChatRun) {
    && IsChatRun(d, y, cr') && Ruled(y, cr'.run) && Extends(cr.run, cr'.run)
    && cr.chats <= cr'.chats && cr.steps <= cr'.steps
  }

  /** In some continuation the message under `client` is acknowledged. */
  ghost predicate CanStillBeAcknowledged(d: Device, y: Identity, cr: ChatRun, client: ClientId) {
    exists cr' :: Continues(d, y, cr, cr') && AcknowledgedAtEnd(y, cr', client)
  }

  ghost predicate AcknowledgedAtEnd(y: Identity, cr: ChatRun, client: ClientId) {
    |cr.run.versions| > 0 && Status(Latest(cr.run), y, client).Acknowledged?
  }

  /** The same conversation over a run that goes on without the history. */
  function Beside(cr: ChatRun, r: Run): ChatRun
    requires |cr.chats| > 0 && |r.versions| >= |cr.chats| && |r.events| >= |cr.steps|
  {
    ChatRun(r, cr.chats + seq(|r.versions| - |cr.chats|, (i: nat) => cr.chats[|cr.chats| - 1]),
            cr.steps + seq(|r.events| - |cr.steps|, (i: nat) => C.Idle))
  }

  lemma BesideStep(d: Device, y: Identity, cr: ChatRun, r: Run, i: nat)
    requires IsChatRun(d, y, cr) && IsRun(d, r) && Extends(cr.run, r) && SendsNothing(cr.run, r) && i < |r.events|
    ensures ChatStepOf(d, y, Beside(cr, r), i)
  {
    hide IsRun, NoCollision, Reason, GivesUp, Status, SendsEntry;
    RunHasVersions(d, r);
    var cr' := Beside(cr, r);
    if i < |cr.steps| {
      assert ChatStepOf(d, y, cr, i);
      assert cr'.chats[i] == cr.chats[i] && cr'.chats[i + 1] == cr.chats[i + 1] && cr'.steps[i] == cr.steps[i];
      assert forall k :: 0 <= k <= i ==> cr'.chats[k] == cr.chats[k] && r.versions[k] == cr.run.versions[k];
      JustifiedStays(d, y, cr.run.versions, r.versions, cr.chats, cr'.chats, i, cr.steps[i]);
    }
  }

  lemma JustifiedStays(d: Device, y: Identity, versions: seq<Contents>, versions': seq<Contents>, chats: seq<C.Chat>,
                       chats': seq<C.Chat>, i: nat, tx: C.ChatTx)
    requires i < |versions| == |chats| && |versions'| == |chats'| && versions <= versions' && chats <= chats'
    requires Justified(d, y, versions, chats, i, tx)
    ensures Justified(d, y, versions', chats', i, tx)
  {
    hide Reason, GivesUp, Status;
    match tx
    case Queue(app, _, sentRaw) =>
      var k :| 0 <= k <= i && sentRaw == !Status(versions[k], y, W.TextId(app)).NotSent?;
      assert sentRaw == !Status(versions'[k], y, W.TextId(app)).NotSent?;
    case RecordIncoming(id, text) =>
      var k :| 0 <= k <= i && DeliveryOf(versions[k], y, id).Undelivered?
               && DeliveryOf(versions[k], y, id).message.plaintext == StoreRecords.Text(text);
      assert DeliveryOf(versions'[k], y, id) == DeliveryOf(versions[k], y, id);
    case Advance(n, state, id) =>
      var j, k :| 0 <= j <= i && 0 <= k <= i && AdvanceReason(d, y, versions, chats, n, state, id, j, k);
      assert AdvanceReason(d, y, versions', chats', n, state, id, j, k);
    case _ =>
  }

  lemma BesideContinues(d: Device, y: Identity, cr: ChatRun, r: Run)
    requires IsChatRun(d, y, cr) && IsRun(d, r) && NoCollision(d, r) && Ruled(y, r)
    requires Extends(cr.run, r) && SendsNothing(cr.run, r)
    requires |r.versions| >= |cr.chats| && |r.events| >= |cr.steps|
    ensures Continues(d, y, cr, Beside(cr, r))
  {
    hide IsRun, NoCollision, Ruled, ChatStepOf, SendsNothing;
    RunHasVersions(d, r);
    var cr' := Beside(cr, r);
    forall i | 0 <= i < |cr'.steps|
      ensures ChatStepOf(d, y, cr', i)
    {
      BesideStep(d, y, cr, r, i);
    }
    assert cr'.run.versions[0] == cr.run.versions[0];
  }

  lemma LatestHas(cr: ChatRun)
    requires |cr.chats| == |cr.run.versions| > 0
    ensures Latest(cr.run) == cr.run.versions[|cr.chats| - 1]
  {
  }

  /** A committed message that is not open is closed. */
  lemma ClosedAtEnd(d: Device, y: Identity, r: Run, client: ClientId, id: MessageId) returns (m: OutgoingMessage)
    requires IsRun(d, r) && NoCollision(d, r) && BoundTo(Latest(r), y, client, id)
    requires !StillOpen(Latest(r), y, r.versions, Status(Latest(r), y, client))
    ensures ClosedUpTo(y, r.versions, |r.versions| - 1, client, m)
  {
    RunHasVersions(d, r);
    var (n, c) := (|r.events|, Latest(r));
    InvAt(d, r, n);
    StatusIsSound(d, r.next[n], c, y, client);
    var status := Status(c, y, client);
    if status.Pending? {
      m := status.message;
    } else {
      m := OutgoingMessage(status.id, client, 0, status.id);
    }
  }

  /** Exactly when: an own entry past `Queued`, whatever it shows, is acknowledged
      in no continuation if and only if its record is abandoned, or its session has
      no generation left and no receipt for it was read. */
  lemma AcknowledgeableExactly(d: Device, y: Identity, cr: ChatRun, n: nat)
    requires IsChatRun(d, y, cr) && Ruled(y, cr.run) && n in cr.chats[|cr.chats| - 1].entries
    requires var e := cr.chats[|cr.chats| - 1].entries[n]; e.outgoing && !e.state.Queued?
    ensures var client := W.TextId(cr.chats[|cr.chats| - 1].entries[n].app);
            CanStillBeAcknowledged(d, y, cr, client)
            <==> StillOpen(Latest(cr.run), y, cr.run.versions, Status(Latest(cr.run), y, client))
  {
    hide IsRun, NoCollision, Ruled, ChatStepOf, StillOpen, Status, BoundTo, ClosedUpTo, SendsNothing;
    var i := |cr.chats| - 1;
    var (e, client) := (cr.chats[i].entries[n], W.TextId(cr.chats[i].entries[n].app));
    LatestHas(cr);
    HistoryAgrees(d, y, cr, i);
    if StillOpen(Latest(cr.run), y, cr.run.versions, Status(Latest(cr.run), y, client)) {
      var r := Acknowledgeable(d, y, cr.run, client);
      RunHasVersions(d, r);
      BesideContinues(d, y, cr, r);
      assert AcknowledgedAtEnd(y, Beside(cr, r), client);
    } else {
      var m := ClosedAtEnd(d, y, cr.run, client, e.id.value);
      forall cr' | Continues(d, y, cr, cr')
        ensures !AcknowledgedAtEnd(y, cr', client)
      {
        NeverAcknowledged(d, y, cr.run, cr'.run, client, m);
      }
    }
  }

  lemma NeverAcknowledged(d: Device, y: Identity, r: Run, r': Run, client: ClientId, m: OutgoingMessage)
    requires IsRun(d, r) && IsRun(d, r') && NoCollision(d, r') && Ruled(y, r') && Extends(r, r')
    requires ClosedUpTo(y, r.versions, |r.versions| - 1, client, m) && !ReceiptClient(client)
    ensures !Status(Latest(r'), y, client).Acknowledged?
  {
    hide IsRun, NoCollision, Ruled, Status, Exhausted, ReadReceipt;
    RunHasVersions(d, r);
    RunHasVersions(d, r');
    ClosedPrefix(y, r.versions, r'.versions, |r.versions| - 1, client, m);
    ClosedForever(d, y, r', |r.versions| - 1, |r'.versions| - 1, client, m);
  }

  lemma ClosedPrefix(y: Identity, versions: seq<Contents>, versions': seq<Contents>, i: nat, client: ClientId, m: OutgoingMessage)
    requires i < |versions| && versions <= versions' && ClosedUpTo(y, versions, i, client, m)
    ensures ClosedUpTo(y, versions', i, client, m)
  {
    hide Status, Exhausted, ReadReceipt;
    assert forall k :: 0 <= k <= i ==> versions'[k] == versions[k];
  }

  /** The record of an own entry past `Queued`. */
  lemma RecordOf(d: Device, y: Identity, cr: ChatRun, n: nat)
    requires IsChatRun(d, y, cr) && n in cr.chats[|cr.chats| - 1].entries
    requires var e := cr.chats[|cr.chats| - 1].entries[n]; e.outgoing && !e.state.Queued?
    ensures var status := Status(Latest(cr.run), y, W.TextId(cr.chats[|cr.chats| - 1].entries[n].app));
            status.Pending? || status.Acknowledged? || status.Abandoned?
  {
    hide IsRun, NoCollision, ChatStepOf, TextAgrees;
    var i := |cr.chats| - 1;
    LatestHas(cr);
    HistoryAgrees(d, y, cr, i);
    InvAt(d, cr.run, i);
    StatusIsSound(d, cr.run.next[i], Latest(cr.run), y, W.TextId(cr.chats[i].entries[n].app));
  }

  /** So what a text shown as not delivered promises — that no receipt will ever
      acknowledge it — holds exactly if its record reads abandoned, or its session
      has no generation left and no receipt for it was read; while it is merely
      pending, the receipt can still come. */
  lemma NotDeliveredExactly(d: Device, y: Identity, cr: ChatRun, n: nat)
    requires IsChatRun(d, y, cr) && Ruled(y, cr.run) && n in cr.chats[|cr.chats| - 1].entries
    requires cr.chats[|cr.chats| - 1].entries[n].state.NotDelivered?
    ensures var (c, client) := (Latest(cr.run), W.TextId(cr.chats[|cr.chats| - 1].entries[n].app));
            var status := Status(c, y, client);
            (forall cr' :: Continues(d, y, cr, cr') ==> !AcknowledgedAtEnd(y, cr', client))
            <==> || status.Abandoned?
                 || (status.Pending? && Exhausted(c, y) && !ReceiptRead(y, cr.run.versions, status.message.id))
  {
    hide IsRun, NoCollision, ChatStepOf, Status, Ruled, Continues, AcknowledgedAtEnd, Exhausted, ReceiptRead;
    HistoryIsConsistent(d, y, cr, |cr.chats| - 1);
    AcknowledgeableExactly(d, y, cr, n);
    RecordOf(d, y, cr, n);
  }
}

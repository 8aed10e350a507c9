/** What holds over every run of any number of instances over one store. */
module MessengerGuarantees {
  import opened Prelude
  import opened RatchetFields
  import opened SymbolicKeys
  import opened RatchetModel
  import opened Staging
  import opened StoreRecords
  import opened ConditionalWrites
  import opened DurableSessions
  import opened MessengerModel
  import opened MessengerInvariant
  import opened MessengerRuns

  // ── One successor per stored session ──────────────────────────────────────

  /** The session a transaction replaces or removes, if it is of that kind. */
  function BaseOf(tx: Tx): Option<SessionState> {
    match tx
    case Send(_, _, base, _, _, _) => Some(base)
    case Receive(base, _, _) => Some(base)
    case Retire(base, _, _) => Some(base)
    case Remove(base) => Some(base)
    case _ => None
  }

  lemma ConsumedIsGone(d: Device, next: nat, c: Contents, tx: Tx, base: SessionState)
    requires Formed(d, next, tx) && Fires(d, next, c, tx) && BaseOf(tx) == Some(base)
    ensures Lookup(c, SessionKey(base.peer)) == Some(SessionRecord(base))
    ensures Lookup(Effect(d, next, c, tx), SessionKey(base.peer)) != Some(SessionRecord(base))
  {
  }

  /** Across instances, reloads, unknown outcomes, removals and re-creations, at
      most one transition is ever committed from each stored session record. */
  lemma OneSuccessor(d: Device, r: Run, i: nat, j: nat, base: SessionState)
    requires IsRun(d, r) && NoCollision(d, r) && i < j < |r.events|
    requires StepOf(d, r, i) && Fired(d, r, i) && BaseOf(r.events[i].tx) == Some(base)
    requires StepOf(d, r, j) && BaseOf(r.events[j].tx) == Some(base)
    ensures !Fired(d, r, j)
  {
    RunKeepsInv(d, r, j);
    hide Inv;
    ConsumedIsGone(d, r.next[i], r.versions[i], r.events[i].tx, base);
    if Fired(d, r, j) {
      ConsumedIsGone(d, r.next[j], r.versions[j], r.events[j].tx, base);
      Unbroken(d, r, i, i + 1, j, base.peer, SessionRecord(base));
    }
  }

  // ── Established sessions are permanent ────────────────────────────────────

  /** Once a session has accepted a message from its peer, a transaction either
      leaves it or advances it by one generation. */
  lemma StepKeepsEstablished(d: Device, next: nat, c: Contents, tx: Tx, fault: Fault, p: Identity)
    requires Inv(d, next, c) && Formed(d, next, tx) && HasReceived(c, p)
    ensures var c' := After(d, next, c, tx, fault);
            && HasReceived(c', p)
            && var (s, t) := (c[SessionKey(p)].session, c'[SessionKey(p)].session);
               t == s || (t == s.(generation := s.generation + 1, ratchet := t.ratchet) && s.generation < U64_MAX)
  {
    if tx.Send? && Fires(d, next, c, tx) {
      SendStaged(tx.base, tx.plaintext, tx.nonce);
    } else if tx.Receive? && Fires(d, next, c, tx) {
      ReceiveStaged(tx.base, tx.wire, tx.newDh);
    }
  }

  lemma {:induction false} EstablishedForever(d: Device, r: Run, i: nat, j: nat, p: Identity)
    requires IsRun(d, r) && NoCollision(d, r) && i <= j < |r.versions| && HasReceived(r.versions[i], p)
    ensures HasReceived(r.versions[j], p)
    ensures var (s, t) := (r.versions[i][SessionKey(p)].session, r.versions[j][SessionKey(p)].session);
            && s.generation <= t.generation <= s.generation + (j - i)
            && t == s.(generation := t.generation, ratchet := t.ratchet)
            && Lookup(r.versions[j], HandleKey(d.handleOf(p))) == Some(HandleRecord(p))
  {
    InvAt(d, r, j);
    if i < j {
      EstablishedForever(d, r, i, j - 1, p);
      StepAt(d, r, j - 1);
      var e := r.events[j - 1];
      StepKeepsEstablished(d, r.next[j - 1], r.versions[j - 1], e.tx, e.fault, p);
    }
  }

  /** Nothing is orphaned: pending, undelivered and acknowledged messages have
      their session; handles and sessions name each other. */
  lemma NothingOrphaned(d: Device, r: Run, i: nat, p: Identity, id: MessageId)
    requires IsRun(d, r) && NoCollision(d, r) && i < |r.versions|
    ensures var c := r.versions[i];
            && (OutboxKey(p, id) in c || InboxKey(p, id) in c || SeenKey(p, id) in c ==> SessionKey(p) in c)
            && (InboxKey(p, id) in c || SeenKey(p, id) in c ==> HasReceived(c, p))
            && (SessionKey(p) in c <==> Lookup(c, HandleKey(d.handleOf(p))) == Some(HandleRecord(p)))
            && (forall h :: Lookup(c, HandleKey(h)) == Some(HandleRecord(p)) ==> h == d.handleOf(p))
  {
    InvAt(d, r, i);
  }

  // ── Exactly-once logical sends ────────────────────────────────────────────

  datatype SendStatus =
    | NotSent
    | Pending(message: OutgoingMessage)
    | Acknowledged(id: MessageId)
    | Abandoned(id: MessageId)
    | Broken

  /** What `read_prior_send` reports. */
  function Status(c: Contents, p: Identity, client: ClientId): SendStatus {
    match Lookup(c, SendIdKey(p, client))
    case None => NotSent
    case Some(AbandonedRecord(id)) => Abandoned(id)
    case Some(SentRecord(id)) =>
      if OutboxKey(p, id) !in c then Acknowledged(id)
      else if DecodesOutbox(c[OutboxKey(p, id)]) then Pending(c[OutboxKey(p, id)].outgoing)
      else Broken
    case Some(_) => Broken
  }

  /** How far a logical send may move. */
  predicate Follows(a: SendStatus, b: SendStatus) {
    match a
    case NotSent => true
    case Pending(m) => b == a || b == Acknowledged(m.id) || b == Abandoned(m.id)
    case _ => b == a
  }

  lemma StatusIsSound(d: Device, next: nat, c: Contents, p: Identity, client: ClientId)
    requires Inv(d, next, c)
    ensures var s := Status(c, p, client);
            && s != Broken
            && (s.Pending? ==> s.message.client == client && s.message.wire == s.message.id)
  {
  }

  lemma StepStatus(d: Device, next: nat, c: Contents, tx: Tx, fault: Fault, p: Identity, client: ClientId)
    requires Inv(d, next, c) && Formed(d, next, tx)
    requires Fires(d, next, c, tx) ==> Safe(c, tx)
    ensures Follows(Status(c, p, client), Status(After(d, next, c, tx, fault), p, client))
  {
    hide SessionRows, Incoming, StagedReceive, Candidate, CheckAnswerable;
  }

  /** Over any run a logical message keeps its id, its bytes while pending, and
      leaves pending at most once. */
  lemma {:induction false} StatusOnlyMovesForward(d: Device, r: Run, i: nat, j: nat, p: Identity, client: ClientId)
    requires IsRun(d, r) && NoCollision(d, r) && i <= j < |r.versions|
    ensures Follows(Status(r.versions[i], p, client), Status(r.versions[j], p, client))
  {
    hide Inv, NoCollision, After, Fires, Formed, Reads;
    if i < j {
      StatusOnlyMovesForward(d, r, i, j - 1, p, client);
      StepAt(d, r, j - 1);
      var e := r.events[j - 1];
      StepStatus(d, r.next[j - 1], r.versions[j - 1], e.tx, e.fault, p, client);
    }
  }

  /** Each logical message is encrypted and committed at most once. */
  lemma SentAtMostOnce(d: Device, r: Run, i: nat, j: nat)
    requires IsRun(d, r) && NoCollision(d, r) && i < j < |r.events|
    requires r.events[i].tx.Send? && r.events[j].tx.Send?
    requires r.events[i].tx.index == r.events[j].tx.index && r.events[i].tx.client == r.events[j].tx.client
    requires StepOf(d, r, i) && Fired(d, r, i) && StepOf(d, r, j)
    ensures !Fired(d, r, j)
  {
    StatusOnlyMovesForward(d, r, i + 1, j, r.events[i].tx.index, r.events[i].tx.client);
  }

  /** The message a logical id is bound to, sent or abandoned. */
  predicate BoundTo(c: Contents, p: Identity, client: ClientId, id: MessageId) {
    Lookup(c, SendIdKey(p, client)) == Some(SentRecord(id)) || Lookup(c, SendIdKey(p, client)) == Some(AbandonedRecord(id))
  }

  lemma StepKeepsBinding(d: Device, next: nat, c: Contents, tx: Tx, fault: Fault, p: Identity, client: ClientId, id: MessageId)
    requires Inv(d, next, c) && Formed(d, next, tx) && BoundTo(c, p, client, id)
    ensures BoundTo(After(d, next, c, tx, fault), p, client, id)
  {
    hide SessionRows, Incoming, StagedReceive, Candidate, CheckAnswerable;
  }

  lemma {:induction false} BindingStays(d: Device, r: Run, i: nat, j: nat, p: Identity, client: ClientId, id: MessageId)
    requires IsRun(d, r) && NoCollision(d, r) && i <= j < |r.versions| && BoundTo(r.versions[i], p, client, id)
    ensures BoundTo(r.versions[j], p, client, id)
  {
    hide Inv, NoCollision, After, Fires, Formed, Reads;
    if i < j {
      BindingStays(d, r, i, j - 1, p, client, id);
      StepAt(d, r, j - 1);
      var e := r.events[j - 1];
      StepKeepsBinding(d, r.next[j - 1], r.versions[j - 1], e.tx, e.fault, p, client, id);
    }
  }

  /** The message a send that fired committed. */
  function SentBy(tx: Tx): MessageId
    requires tx.Send? && StagedSend(tx.base, tx.plaintext, tx.nonce).Some?
  {
    StagedSend(tx.base, tx.plaintext, tx.nonce).value.wire
  }

  lemma SendBinds(d: Device, next: nat, c: Contents, tx: Tx)
    requires tx.Send? && Formed(d, next, tx) && Fires(d, next, c, tx)
    ensures SendIdKey(tx.index, tx.client) !in c
    ensures BoundTo(Effect(d, next, c, tx), tx.index, tx.client, SentBy(tx))
  {
  }

  lemma InvDistinct(d: Device, next: nat, c: Contents)
    requires Inv(d, next, c)
    ensures DistinctPositions(c)
  {
  }

  lemma DistinctWhenBound(c: Contents, p: Identity, client: ClientId, client': ClientId, id: MessageId, id': MessageId)
    requires DistinctPositions(c) && client != client' && BoundTo(c, p, client, id) && BoundTo(c, p, client', id')
    ensures !SamePosition(id.header, id'.header)
  {
  }

  /** Committed ciphertexts to one peer never share a position, whatever became
      of the sessions in between. */
  lemma PositionsNeverShared(d: Device, r: Run, i: nat, j: nat)
    requires IsRun(d, r) && NoCollision(d, r) && i < j < |r.events|
    requires r.events[i].tx.Send? && r.events[j].tx.Send? && r.events[i].tx.index == r.events[j].tx.index
    requires StepOf(d, r, i) && Fired(d, r, i) && StepOf(d, r, j) && Fired(d, r, j)
    ensures !SamePosition(SentBy(r.events[i].tx).header, SentBy(r.events[j].tx).header)
  {
    hide Inv, StagedSend, NoCollision, DistinctPositions;
    var (a, b) := (r.events[i].tx, r.events[j].tx);
    assert DistinctPositions(r.versions[j + 1]) by {
      InvAt(d, r, j + 1);
      InvDistinct(d, r.next[j + 1], r.versions[j + 1]);
    }
    SendBinds(d, r.next[i], r.versions[i], a);
    SendBinds(d, r.next[j], r.versions[j], b);
    BindingStays(d, r, i + 1, j, a.index, a.client, SentBy(a));
    BindingStays(d, r, i + 1, j + 1, a.index, a.client, SentBy(a));
    DistinctWhenBound(r.versions[j + 1], a.index, a.client, b.client, SentBy(a), SentBy(b));
  }

  /** Whatever an instance reads from the outbox, and so may transmit, was
      committed by a send. */
  lemma {:induction false} OutboxWasCommitted(d: Device, r: Run, j: nat, p: Identity, id: MessageId) returns (i: nat)
    requires IsRun(d, r) && NoCollision(d, r) && j < |r.versions|
    requires OutboxKey(p, id) in r.versions[j] && OutboxKey(p, id) !in r.versions[0]
    ensures i < j && StepOf(d, r, i) && r.events[i].tx.Send? && Fired(d, r, i)
    ensures var tx := r.events[i].tx;
            tx.index == p && SentBy(tx) == id
  {
    i := j - 1;
    StepAt(d, r, i);
    hide Inv;
    if OutboxKey(p, id) in r.versions[i] {
      i := OutboxWasCommitted(d, r, i, p, id);
    }
  }

  // ── Exactly-once acceptance without loss ──────────────────────────────────

  datatype Delivery = NotAccepted | Undelivered(message: IncomingMessage) | Delivered | Malformed

  function DeliveryOf(c: Contents, p: Identity, id: MessageId): Delivery {
    match Lookup(c, InboxKey(p, id))
    case Some(InboxRecord(m)) => Undelivered(m)
    case Some(_) => Malformed
    case None => if SeenKey(p, id) in c then Delivered else NotAccepted
  }

  lemma StepDelivery(d: Device, next: nat, c: Contents, tx: Tx, fault: Fault, p: Identity, id: MessageId)
    requires Inv(d, next, c) && Formed(d, next, tx)
    ensures var (a, b) := (DeliveryOf(c, p, id), DeliveryOf(After(d, next, c, tx, fault), p, id));
            match a
            case NotAccepted => b.NotAccepted? || (b.Undelivered? && (tx.Receive? || tx.Accept?))
            case Undelivered(_) => b == a || (b.Delivered? && tx == AckIn(p, id))
            case Delivered => b.Delivered?
            case Malformed => false
  {
    hide SessionRows, Outbox, SendIds, DistinctPositions, StagedReceive, StagedSend, Candidate, CheckAnswerable;
  }

  /** Exactly one of the two records exists from acceptance on. */
  lemma {:induction false} AcceptedForever(d: Device, r: Run, i: nat, j: nat, p: Identity, id: MessageId)
    requires IsRun(d, r) && NoCollision(d, r) && i <= j < |r.versions|
    ensures !DeliveryOf(r.versions[i], p, id).NotAccepted? ==> !DeliveryOf(r.versions[j], p, id).NotAccepted?
    ensures InboxKey(p, id) in r.versions[j] ==> SeenKey(p, id) !in r.versions[j]
    ensures DeliveryOf(r.versions[i], p, id).Delivered? ==> DeliveryOf(r.versions[j], p, id).Delivered?
  {
    InvAt(d, r, j);
    if i < j {
      AcceptedForever(d, r, i, j - 1, p, id);
      StepAt(d, r, j - 1);
      var e := r.events[j - 1];
      hide Inv;
      StepDelivery(d, r.next[j - 1], r.versions[j - 1], e.tx, e.fault, p, id);
    }
  }

  predicate Accepts(d: Device, tx: Tx, p: Identity, id: MessageId) {
    match tx
    case Accept(peer, _, _, wire, _, _) => peer == p && wire == id
    case Receive(base, wire, _) => base.peer == p && wire == id
    case _ => false
  }

  /** For each message at most one acceptance is ever committed. */
  lemma AcceptedAtMostOnce(d: Device, r: Run, i: nat, j: nat, p: Identity, id: MessageId)
    requires IsRun(d, r) && NoCollision(d, r) && i < j < |r.events|
    requires StepOf(d, r, i) && Fired(d, r, i) && Accepts(d, r.events[i].tx, p, id)
    requires StepOf(d, r, j) && Accepts(d, r.events[j].tx, p, id)
    ensures !Fired(d, r, j)
  {
    hide Inv, StagedReceive, StagedSend, Candidate, CheckAnswerable;
    AcceptedForever(d, r, i + 1, j, p, id);
  }

  /** A committed plaintext stays listed, unchanged, until an acknowledgement of
      it commits. */
  lemma {:induction false} ListedUntilAcknowledged(d: Device, r: Run, i: nat, j: nat, p: Identity, id: MessageId)
    requires IsRun(d, r) && NoCollision(d, r) && i <= j < |r.versions|
    requires DeliveryOf(r.versions[i], p, id).Undelivered?
    requires forall k :: i <= k < j && StepOf(d, r, k) && r.events[k].tx == AckIn(p, id) ==> !Fired(d, r, k)
    ensures DeliveryOf(r.versions[j], p, id) == DeliveryOf(r.versions[i], p, id)
  {
    if i < j {
      ListedUntilAcknowledged(d, r, i, j - 1, p, id);
      StepAt(d, r, j - 1);
      var e := r.events[j - 1];
      hide Inv;
      StepDelivery(d, r.next[j - 1], r.versions[j - 1], e.tx, e.fault, p, id);
    }
  }
}

/** Every run of two devices: delivery is sound end to end. */
module EndToEndRuns {
  import opened Prelude
  import opened SymbolicKeys
  import opened RatchetModel
  import opened Staging
  import opened StoreRecords
  import opened ConditionalWrites
  import opened MessengerModel
  import opened MessengerInvariant
  import opened MessengerRuns
  import opened MessengerGuarantees
  import opened EndToEnd
  import TP = TwoParty

  /** One run on each device, step by step together: at most one of the two
      commits at a time. */
  datatype WorldRun = WorldRun(a: Run, b: Run)

  /** The device knows nothing of `y` yet. */
  ghost predicate Strangers(c: Contents, y: Identity) {
    && SessionKey(y) !in c
    && (forall client :: SendIdKey(y, client) !in c)
    && (forall id :: OutboxKey(y, id) !in c && InboxKey(y, id) !in c && SeenKey(y, id) !in c)
  }

  /** `settle` read, at version `k`, a receipt of `y` that lists `id`. */
  ghost predicate ReadReceipt(c: Contents, y: Identity, id: MessageId) {
    exists rid :: InboxKey(y, rid) in c && c[InboxKey(y, rid)].InboxRecord?
                  && c[InboxKey(y, rid)].incoming.plaintext.Receipt? && id in c[InboxKey(y, rid)].incoming.plaintext.ids
  }

  /** `publish_pending` read, as pending, a receipt of its own. */
  predicate ReadOwnReceipt(c: Contents, y: Identity, id: MessageId) {
    OutboxKey(y, id) in c && c[OutboxKey(y, id)].OutboxRecord? && ReceiptClient(c[OutboxKey(y, id)].outgoing.client)
  }

  /** What the network layer does with the messenger: it sends receipts only for
      messages it read as accepted, and acknowledges a message only on a receipt
      that lists it, or if it is a receipt of its own. */
  ghost predicate RuleAt(y: Identity, versions: seq<Contents>, i: nat, tx: Tx)
    requires i < |versions|
  {
    match tx
    case Send(_, index, _, _, plaintext, _) =>
      index == y && plaintext.Receipt? ==>
        forall id :: id in plaintext.ids ==> exists k :: 0 <= k <= i && AcceptedAt(versions[k], y, id)
    case AckOut(p, id) =>
      p == y ==> exists k :: 0 <= k <= i && (ReadReceipt(versions[k], y, id) || ReadOwnReceipt(versions[k], y, id))
    case _ => true
  }

  ghost predicate AppRule(y: Identity, r: Run, i: nat)
    requires |r.versions| == |r.events| + 1 && i < |r.events|
  {
    RuleAt(y, r.versions, i, r.events[i].tx)
  }

  /** What the network can hand over: anything, but no ciphertext between the two
      that neither committed. */
  ghost predicate NetworkRule(x: Identity, y: Identity, cx: Contents, cy: Contents, tx: Tx) {
    match tx
    case Accept(p, _, _, wire, _, _) => p == y ==> Deliverable(x, y, cx, cy, wire.cipher)
    case Receive(base, wire, _) => base.peer == y ==> Deliverable(x, y, cx, cy, wire.cipher)
    case _ => true
  }

  ghost predicate IsWorldRun(da: Device, db: Device, w: WorldRun) {
    && da.our != db.our
    && IsRun(da, w.a) && NoCollision(da, w.a) && IsRun(db, w.b) && NoCollision(db, w.b)
    && |w.a.events| == |w.b.events| && w.a.next == w.b.next
    && Strangers(w.a.versions[0], db.our) && Strangers(w.b.versions[0], da.our)
    && forall i :: 0 <= i < |w.a.events| ==> TogetherAt(da, db, w, i)
  }

  ghost predicate TogetherAt(da: Device, db: Device, w: WorldRun, i: nat)
    requires |w.a.versions| == |w.a.events| + 1 == |w.b.versions| == |w.b.events| + 1 && i < |w.a.events|
  {
    && (!Kept(w.a.events[i].fault) || !Kept(w.b.events[i].fault))
    && AppRule(db.our, w.a, i) && AppRule(da.our, w.b, i)
    && NetworkRule(da.our, db.our, w.a.versions[i], w.b.versions[i], w.a.events[i].tx)
    && NetworkRule(db.our, da.our, w.b.versions[i], w.a.versions[i], w.b.events[i].tx)
  }

  function Swap(w: WorldRun): WorldRun {
    WorldRun(w.b, w.a)
  }

  lemma SwapIsRun(da: Device, db: Device, w: WorldRun)
    requires IsWorldRun(da, db, w)
    ensures IsWorldRun(db, da, Swap(w))
  {
    hide StepOf, Inv, NoCollision, AppRule, NetworkRule, Strangers;
    forall i | 0 <= i < |w.b.events|
      ensures TogetherAt(db, da, Swap(w), i)
    {
      assert TogetherAt(da, db, w, i);
    }
  }

  lemma WorldSwap(x: Identity, y: Identity, next: nat, cx: Contents, cy: Contents, pairs: Pairs)
    requires World(x, y, next, cx, cy, pairs)
    ensures World(y, x, next, cy, cx, pairs)
  {
    hide TP.Inv, Half;
  }

  lemma StrangersAreFine(x: Identity, y: Identity, next: nat, cx: Contents, cy: Contents)
    requires Strangers(cx, y) && Strangers(cy, x)
    ensures World(x, y, next, cx, cy, map[])
  {
  }

  // ── Every version of every run is sound ───────────────────────────────────

  lemma AcceptedStays(d: Device, r: Run, k: nat, i: nat, y: Identity, id: MessageId)
    requires IsRun(d, r) && NoCollision(d, r) && k <= i < |r.versions| && AcceptedAt(r.versions[k], y, id)
    ensures AcceptedAt(r.versions[i], y, id)
  {
    InvAt(d, r, k);
    AcceptedForever(d, r, k, i, y, id);
  }

  /** A message is pending under one client id only. */
  lemma OwnReceiptOnly(d: Device, r: Run, k: nat, i: nat, y: Identity, id: MessageId)
    requires IsRun(d, r) && NoCollision(d, r) && k <= i < |r.versions|
    requires ReadOwnReceipt(r.versions[k], y, id) && OutboxKey(y, id) in r.versions[i]
    ensures ReadOwnReceipt(r.versions[i], y, id)
  {
    InvAt(d, r, k);
    InvAt(d, r, i);
    var (was, now) := (r.versions[k][OutboxKey(y, id)].outgoing.client, r.versions[i][OutboxKey(y, id)].outgoing.client);
    assert BoundTo(r.versions[k], y, was, id) && BoundTo(r.versions[i], y, now, id);
    BindingStays(d, r, k, i, y, was, id);
    assert DistinctPositions(r.versions[i]);
  }

  lemma RuleAllows(d: Device, y: Identity, r: Run, i: nat, cy: Contents, pairs: Pairs)
    requires d.our != y && IsRun(d, r) && NoCollision(d, r) && i < |r.events| && StepOf(d, r, i)
    requires World(d.our, y, r.next[i], r.versions[i], cy, pairs)
    requires forall k :: 0 <= k <= i ==> AsSealed(y, r.versions[k])
    requires AppRule(y, r, i) && NetworkRule(d.our, y, r.versions[i], cy, r.events[i].tx)
    ensures Allowed(d.our, y, r.versions[i], cy, r.events[i].tx)
  {
    var tx := r.events[i].tx;
    if tx.Send? && tx.index == y && tx.plaintext.Receipt? {
      forall id | id in tx.plaintext.ids
        ensures AcceptedAt(r.versions[i], y, id)
      {
        var k :| 0 <= k <= i && AcceptedAt(r.versions[k], y, id);
        AcceptedStays(d, r, k, i, y, id);
      }
    } else if tx.AckOut? && tx.peer == y {
      var k :| 0 <= k <= i && (ReadReceipt(r.versions[k], y, tx.id) || ReadOwnReceipt(r.versions[k], y, tx.id));
      if ReadOwnReceipt(r.versions[k], y, tx.id) {
        if OutboxKey(y, tx.id) in r.versions[i] {
          OwnReceiptOnly(d, r, k, i, y, tx.id);
        }
      } else {
        var c := r.versions[k];
        var rid :| InboxKey(y, rid) in c && c[InboxKey(y, rid)].InboxRecord?
                   && c[InboxKey(y, rid)].incoming.plaintext.Receipt? && tx.id in c[InboxKey(y, rid)].incoming.plaintext.ids;
        AcceptedStays(d, r, k, i, y, rid);
        assert AsSealed(y, c);
        assert SentWire(pairs, y, rid);
      }
    }
  }

  ghost predicate SealedUpTo(y: Identity, r: Run, i: nat) {
    forall k :: 0 <= k <= i < |r.versions| ==> AsSealed(y, r.versions[k])
  }

  /** One step of the pair: of one device, of the other, or of neither. */
  lemma StepTogether(da: Device, db: Device, w: WorldRun, i: nat, pairs: Pairs) returns (pairs': Pairs)
    requires IsWorldRun(da, db, w) && i < |w.a.events|
    requires World(da.our, db.our, w.a.next[i], w.a.versions[i], w.b.versions[i], pairs)
    requires SealedUpTo(db.our, w.a, i) && !Kept(w.b.events[i].fault)
    ensures World(da.our, db.our, w.a.next[i + 1], w.a.versions[i + 1], w.b.versions[i + 1], pairs')
  {
    StepAt(da, w.a, i);
    assert TogetherAt(da, db, w, i);
    assert StepOf(db, w.b, i);
    hide Inv, World, TogetherAt, AppRule, NetworkRule;
    assert AppRule(db.our, w.a, i) && NetworkRule(da.our, db.our, w.a.versions[i], w.b.versions[i], w.a.events[i].tx) by {
      RulesAt(da, db, w, i);
    }
    RuleAllows(da, db.our, w.a, i, w.b.versions[i], pairs);
    var e := w.a.events[i];
    pairs' := WorldStep(da, w.a.next[i], w.a.next[i + 1], w.a.versions[i], e.tx, e.fault, db.our, w.b.versions[i], pairs);
  }

  lemma RulesAt(da: Device, db: Device, w: WorldRun, i: nat)
    requires IsWorldRun(da, db, w) && i < |w.a.events|
    ensures AppRule(db.our, w.a, i) && NetworkRule(da.our, db.our, w.a.versions[i], w.b.versions[i], w.a.events[i].tx)
  {
    assert TogetherAt(da, db, w, i);
  }

  lemma WorldIsSealed(x: Identity, y: Identity, next: nat, cx: Contents, cy: Contents, pairs: Pairs)
    requires World(x, y, next, cx, cy, pairs)
    ensures AsSealed(y, cx) && AsSealed(x, cy) && AckSound(x, y, cx, cy)
  {
  }

  lemma {:induction false} WorldAt(da: Device, db: Device, w: WorldRun, i: nat) returns (pairs: Pairs)
    requires IsWorldRun(da, db, w) && i < |w.a.versions|
    ensures World(da.our, db.our, w.a.next[i], w.a.versions[i], w.b.versions[i], pairs)
    ensures SealedUpTo(db.our, w.a, i) && SealedUpTo(da.our, w.b, i)
  {
    hide World, StepOf, Inv, AppRule, NetworkRule, Strangers;
    if i == 0 {
      StrangersAreFine(da.our, db.our, w.a.next[0], w.a.versions[0], w.b.versions[0]);
      pairs := map[];
    } else {
      pairs := WorldAt(da, db, w, i - 1);
      assert TogetherAt(da, db, w, i - 1);
      if !Kept(w.b.events[i - 1].fault) {
        pairs := StepTogether(da, db, w, i - 1, pairs);
      } else {
        SwapIsRun(da, db, w);
        WorldSwap(da.our, db.our, w.a.next[i - 1], w.a.versions[i - 1], w.b.versions[i - 1], pairs);
        pairs := StepTogether(db, da, Swap(w), i - 1, pairs);
        WorldSwap(db.our, da.our, w.a.next[i], w.b.versions[i], w.a.versions[i], pairs);
      }
    }
    WorldIsSealed(da.our, db.our, w.a.next[i], w.a.versions[i], w.b.versions[i], pairs);
  }

  // ── The theorems ──────────────────────────────────────────────────────────

  /** Delivery is sound end to end: whatever the relay loses, reorders, repeats or
      forges, a text recorded as acknowledged is held, as accepted, by the peer;
      and if it is still undelivered there, with exactly the text that was sent. */
  lemma AcknowledgedIsHeld(da: Device, db: Device, w: WorldRun, i: nat, client: ClientId, id: MessageId)
    requires IsWorldRun(da, db, w) && i < |w.a.versions| && !ReceiptClient(client)
    requires Status(w.a.versions[i], db.our, client) == Acknowledged(id)
    ensures !DeliveryOf(w.b.versions[i], da.our, id).NotAccepted?
    ensures var held := DeliveryOf(w.b.versions[i], da.our, id);
            held.Undelivered? ==> id.cipher.Sealed? && held.message.plaintext == id.cipher.plaintext
  {
    hide World, StepOf, Inv, AppRule, NetworkRule, Strangers;
    var pairs := WorldAt(da, db, w, i);
    WorldIsSealed(da.our, db.our, w.a.next[i], w.a.versions[i], w.b.versions[i], pairs);
  }

  /** What one device accepts from the other, the other committed as that very
      message, and the plaintext is the one it encrypted. */
  lemma AcceptedWasCommitted(da: Device, db: Device, w: WorldRun, i: nat, id: MessageId)
    requires IsWorldRun(da, db, w) && i < |w.a.versions|
    requires !DeliveryOf(w.a.versions[i], db.our, id).NotAccepted?
    ensures exists client :: BoundTo(w.b.versions[i], da.our, client, id)
    ensures var held := DeliveryOf(w.a.versions[i], db.our, id);
            held.Undelivered? ==> id.cipher.Sealed? && held.message.plaintext == id.cipher.plaintext
  {
    var pairs := WorldAt(da, db, w, i);
    hide TP.Inv, BoundTo;
    assert Genuine(db.our, w.a.versions[i], pairs);
    assert OnRecord(db.our, da.our, w.b.versions[i], pairs);
    assert HasRecord(w.b.versions[i], da.our, id);
  }
}

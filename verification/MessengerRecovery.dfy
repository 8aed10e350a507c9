/** Recovery after an unknown outcome, first contact and prekeys, over every
    run; and exactly when the two claims that can fail do hold. */
module MessengerRecovery {
  import opened Prelude
  import opened RatchetFields
  import opened SymbolicKeys
  import opened RatchetModel
  import opened Staging
  import opened StoreRecords
  import opened ConditionalWrites
  import opened DurableSessions
  import opened MessengerModel
  import opened MessengerInvariant
  import opened MessengerRuns
  import opened MessengerGuarantees
  import TwoParty

  // ── Sound recovery ────────────────────────────────────────────────────────

  /** What an instance remembers of a commit with an unknown outcome. */
  datatype Unresolved = Unresolved(
    attempted: U64,
    artifacts: seq<StoreKey>,
    createsSession: bool,
    stagedOnLegacy: Option<Identity>)

  function UnresolvedSend(tx: Tx): Unresolved
    requires tx.Send?
  {
    Unresolved(if tx.base.generation < U64_MAX then tx.base.generation + 1 else U64_MAX,
               [SendIdKey(tx.index, tx.client)], false, None)
  }

  function UnresolvedReceive(tx: Tx): Unresolved
    requires tx.Receive?
  {
    var p := tx.base.peer;
    Unresolved(if tx.base.generation < U64_MAX then tx.base.generation + 1 else U64_MAX,
               [InboxKey(p, tx.wire), SeenKey(p, tx.wire)], false,
               if LegacyUnconfirmed(tx.base) then Some(p) else None)
  }

  function UnresolvedAccept(tx: Tx): Unresolved
    requires tx.Accept?
  {
    Unresolved(1, [InboxKey(tx.peer, tx.wire), SeenKey(tx.peer, tx.wire)], true, None)
  }

  function UnresolvedCreate(d: Device, tx: Tx): Unresolved
    requires tx.Create?
  {
    Unresolved(0, [HandleKey(d.handleOf(tx.peer))], true, None)
  }

  /** One read shows a legacy session retired and none of `artifacts` stored. */
  predicate RetiredSince(c: Contents, handle: nat, p: Identity, artifacts: seq<StoreKey>) {
    && SessionKey(p) !in c && HandleKey(handle) !in c
    && (forall k :: 0 <= k < |artifacts| ==> artifacts[k] !in c)
    && ProvisionalKey(handle) in c && c[ProvisionalKey(handle)].ProvisionalRecord? && c[ProvisionalKey(handle)].peer == p
  }

  /** The readings on which `recover` answers that the commit left nothing: the
      artifacts at versions `at`, in order, and the session's handle at `load`. */
  predicate AnswersLost(versions: seq<Contents>, u: Unresolved, handle: nat, at: seq<nat>, load: nat)
    requires |at| == |u.artifacts| && load < |versions|
    requires forall k :: 0 <= k < |at| ==> at[k] < |versions|
  {
    || (forall k :: 0 <= k < |at| ==> u.artifacts[k] !in versions[at[k]])
    || (u.createsSession && HandleKey(handle) !in versions[load])
    || (u.stagedOnLegacy.Some? && RetiredSince(versions[load], handle, u.stagedOnLegacy.value, u.artifacts))
  }

  predicate ReadsAfter(versions: seq<Contents>, i: nat, at: seq<nat>, load: nat) {
    && (forall k :: 0 <= k < |at| ==> i < at[k] < |versions|)
    && (forall k, m :: 0 <= k <= m < |at| ==> at[k] <= at[m])
    && i < load < |versions|
  }

  lemma SendLeavesArtifact(d: Device, r: Run, i: nat, s: nat)
    requires IsRun(d, r) && NoCollision(d, r) && i < |r.events| && i < s < |r.versions|
    requires StepOf(d, r, i) && r.events[i].tx.Send? && Fired(d, r, i)
    ensures SendIdKey(r.events[i].tx.index, r.events[i].tx.client) in r.versions[s]
  {
    var tx := r.events[i].tx;
    hide Inv;
    SendBinds(d, r.next[i], r.versions[i], tx);
    BindingStays(d, r, i + 1, s, tx.index, tx.client, SentBy(tx));
  }

  /** An acceptance leaves its message accepted and its session established. */
  lemma AcceptanceLeaves(d: Device, next: nat, c: Contents, tx: Tx, p: Identity, id: MessageId)
    requires Inv(d, next, c) && Formed(d, next, tx) && Fires(d, next, c, tx) && Accepts(d, tx, p, id)
    ensures DeliveryOf(Effect(d, next, c, tx), p, id).Undelivered?
    ensures HasReceived(Effect(d, next, c, tx), p)
  {
    if tx.Receive? {
      ReceiveStaged(tx.base, tx.wire, tx.newDh);
    } else {
      ReceiveStaged(Candidate(d.our, tx.handshake, tx.prekeys), tx.wire, tx.newDh);
    }
  }

  lemma AcceptanceStays(d: Device, r: Run, i: nat, s: nat, p: Identity, id: MessageId)
    requires IsRun(d, r) && NoCollision(d, r) && i < |r.events| && i < s < |r.versions|
    requires StepOf(d, r, i) && Fired(d, r, i) && Accepts(d, r.events[i].tx, p, id)
    ensures InboxKey(p, id) in r.versions[s] || SeenKey(p, id) in r.versions[s]
    ensures HasReceived(r.versions[s], p)
    ensures HandleKey(d.handleOf(p)) in r.versions[s]
  {
    InvAt(d, r, i);
    hide Inv;
    AcceptanceLeaves(d, r.next[i], r.versions[i], r.events[i].tx, p, id);
    AcceptedForever(d, r, i + 1, s, p, id);
    EstablishedForever(d, r, i + 1, s, p);
  }

  /** An inbox record once there, a later read of the seen record finds it, if a
      read of the inbox record no longer does. */
  lemma ReadInOrder(d: Device, r: Run, i: nat, s: nat, t: nat, p: Identity, id: MessageId)
    requires IsRun(d, r) && NoCollision(d, r) && i < |r.events| && i < s <= t < |r.versions|
    requires StepOf(d, r, i) && Fired(d, r, i) && Accepts(d, r.events[i].tx, p, id)
    ensures InboxKey(p, id) in r.versions[s] || SeenKey(p, id) in r.versions[t]
  {
    AcceptanceStays(d, r, i, s, p, id);
    InvAt(d, r, s);
    AcceptedForever(d, r, s, t, p, id);
    AcceptanceStays(d, r, i, t, p, id);
    InvAt(d, r, t);
  }

  /** If `recover` answers that a send, receive or first message left nothing, it
      never took effect, whatever other instances did between its reads. */
  lemma RecoveryIsSound(d: Device, r: Run, i: nat, u: Unresolved, handle: nat, at: seq<nat>, load: nat)
    requires IsRun(d, r) && NoCollision(d, r) && i < |r.events| && StepOf(d, r, i)
    requires match r.events[i].tx
             case Send(h, index, _, _, _, _) => u == UnresolvedSend(r.events[i].tx)
             case Receive(base, _, _) => u == UnresolvedReceive(r.events[i].tx) && handle == d.handleOf(base.peer)
             case Accept(peer, _, _, _, _, _) => u == UnresolvedAccept(r.events[i].tx) && handle == d.handleOf(peer)
             case _ => false
    requires |at| == |u.artifacts| && ReadsAfter(r.versions, i, at, load)
    requires AnswersLost(r.versions, u, handle, at, load)
    ensures !Fired(d, r, i)
  {
    if Fired(d, r, i) {
      var tx := r.events[i].tx;
      if tx.Send? {
        SendLeavesArtifact(d, r, i, at[0]);
      } else {
        var p := if tx.Receive? then tx.base.peer else tx.peer;
        ReadInOrder(d, r, i, at[0], at[1], p, tx.wire);
        AcceptanceStays(d, r, i, load, p, tx.wire);
      }
    }
  }

  // ── Recovery of a creation ────────────────────────────────────────────────

  /** An initiator session is only ever dropped by a removal. */
  lemma StepKeepsInitiator(d: Device, next: nat, c: Contents, tx: Tx, fault: Fault, p: Identity)
    requires Inv(d, next, c) && Formed(d, next, tx) && InitiatorSession(c, p)
    requires !(tx.Remove? && tx.base.peer == p && Kept(fault) && Fires(d, next, c, tx))
    ensures InitiatorSession(After(d, next, c, tx, fault), p)
    ensures HandleKey(d.handleOf(p)) in After(d, next, c, tx, fault)
  {
    hide MessageRows, Handshakes, Provisionals, HeldPrekeys, CheckAnswerable, Candidate, StagedSend, StagedReceive;
    assert Lookup(c, HandleKey(d.handleOf(p))) == Some(HandleRecord(p));
    if tx.Send? && Fires(d, next, c, tx) {
      SendStaged(tx.base, tx.plaintext, tx.nonce);
    } else if tx.Receive? && Fires(d, next, c, tx) {
      ReceiveStaged(tx.base, tx.wire, tx.newDh);
    }
  }

  lemma {:induction false} InitiatorStays(d: Device, r: Run, i: nat, j: nat, p: Identity)
    requires IsRun(d, r) && NoCollision(d, r) && i <= j < |r.versions|
    requires InitiatorSession(r.versions[i], p) && HandleKey(d.handleOf(p)) in r.versions[i]
    requires forall k :: i <= k < j && StepOf(d, r, k) && r.events[k].tx.Remove? && r.events[k].tx.base.peer == p ==>
               !Fired(d, r, k)
    ensures InitiatorSession(r.versions[j], p) && HandleKey(d.handleOf(p)) in r.versions[j]
  {
    if i < j {
      InitiatorStays(d, r, i, j - 1, p);
      StepAt(d, r, j - 1);
      var e := r.events[j - 1];
      hide Inv;
      StepKeepsInitiator(d, r.next[j - 1], r.versions[j - 1], e.tx, e.fault, p);
    }
  }

  /** A creation that left no handle at some later version never took effect, or
      was removed since. */
  lemma LostOrRemoved(d: Device, r: Run, i: nat, s: nat) returns (k: nat)
    requires IsRun(d, r) && NoCollision(d, r) && i < |r.events| && i < s < |r.versions| && StepOf(d, r, i)
    requires r.events[i].tx.Create? && Fired(d, r, i) && HandleKey(d.handleOf(r.events[i].tx.peer)) !in r.versions[s]
    ensures i < k < s && StepOf(d, r, k) && Fired(d, r, k)
    ensures r.events[k].tx.Remove? && r.events[k].tx.base.peer == r.events[i].tx.peer
  {
    var p := r.events[i].tx.peer;
    if forall k :: i + 1 <= k < s && StepOf(d, r, k) && r.events[k].tx.Remove? && r.events[k].tx.base.peer == p ==>
                     !Fired(d, r, k) {
      InitiatorStays(d, r, i + 1, s, p);
      assert false;
    }
    k :| i + 1 <= k < s && StepOf(d, r, k) && r.events[k].tx.Remove? && r.events[k].tx.base.peer == p && Fired(d, r, k);
  }

  // ── Exactly when a handle is stored ───────────────────────────────────────

  /** The transaction stores handle `h`. */
  predicate Takes(d: Device, tx: Tx, h: nat) {
    (tx.Create? || tx.Accept?) && d.handleOf(tx.peer) == h
  }

  /** The transaction deletes handle `h`. */
  predicate Frees(d: Device, tx: Tx, h: nat) {
    (tx.Remove? || tx.Retire?) && d.handleOf(tx.base.peer) == h
  }

  lemma StepHandle(d: Device, next: nat, c: Contents, tx: Tx, fault: Fault, h: nat)
    requires Formed(d, next, tx)
    ensures var fired := Kept(fault) && Fires(d, next, c, tx);
            HandleKey(h) in After(d, next, c, tx, fault)
            <==> (fired && Takes(d, tx, h)) || (HandleKey(h) in c && !(fired && Frees(d, tx, h)))
  {
    hide Formed, StagedSend, StagedReceive, Candidate, NewInitiator, Storable;
  }

  /** Event `k` took effect and stored or deleted handle `h`. */
  ghost predicate Touches(d: Device, r: Run, h: nat, k: nat)
    requires |r.versions| == |r.next| == |r.events| + 1 && k < |r.events|
  {
    StepOf(d, r, k) && Fired(d, r, k) && (Takes(d, r.events[k].tx, h) || Frees(d, r.events[k].tx, h))
  }

  ghost predicate Untouched(d: Device, r: Run, h: nat, i: nat, s: nat)
    requires |r.versions| == |r.next| == |r.events| + 1 && s < |r.versions|
  {
    forall k :: i <= k < s ==> !Touches(d, r, h, k)
  }

  /** Event `k` is the last before version `s` to store or delete handle `h`. */
  ghost predicate LastTouch(d: Device, r: Run, h: nat, k: nat, s: nat)
    requires |r.versions| == |r.next| == |r.events| + 1 && s < |r.versions|
  {
    k < s && Touches(d, r, h, k) && Untouched(d, r, h, k + 1, s)
  }

  /** From version `i` to version `s`, the last event to touch the handle decides
      whether it is stored; if none does, nothing changed. */
  lemma {:induction false} HandleExactly(d: Device, r: Run, h: nat, i: nat, s: nat)
    requires IsRun(d, r) && i <= s < |r.versions|
    ensures Untouched(d, r, h, i, s) ==> (HandleKey(h) in r.versions[s] <==> HandleKey(h) in r.versions[i])
    ensures forall k :: i <= k && LastTouch(d, r, h, k, s) ==>
              (HandleKey(h) in r.versions[s] <==> Takes(d, r.events[k].tx, h))
    ensures Untouched(d, r, h, i, s) || exists k :: i <= k && LastTouch(d, r, h, k, s)
  {
    hide Formed, Fires, After, Reads, Inv, Takes, Frees;
    if i < s {
      HandleExactly(d, r, h, i, s - 1);
      assert StepOf(d, r, s - 1);
      var e := r.events[s - 1];
      StepHandle(d, r.next[s - 1], r.versions[s - 1], e.tx, e.fault, h);
      TakesOrFrees(d, e.tx, h);
      if Touches(d, r, h, s - 1) {
        assert LastTouch(d, r, h, s - 1, s);
      } else if !Untouched(d, r, h, i, s) {
        var k :| i <= k && LastTouch(d, r, h, k, s - 1);
        assert LastTouch(d, r, h, k, s);
      }
      forall k | i <= k && LastTouch(d, r, h, k, s)
        ensures HandleKey(h) in r.versions[s] <==> Takes(d, r.events[k].tx, h)
      {
        if k < s - 1 {
          assert LastTouch(d, r, h, k, s - 1);
        }
      }
    }
  }

  lemma TakesOrFrees(d: Device, tx: Tx, h: nat)
    ensures !(Takes(d, tx, h) && Frees(d, tx, h))
  {
  }

  /** The last event between `i` and version `s` to touch the handle deleted it. */
  ghost predicate FreedBetween(d: Device, r: Run, h: nat, i: nat, s: nat)
    requires |r.versions| == |r.next| == |r.events| + 1 && s < |r.versions|
  {
    exists k :: i < k && LastTouch(d, r, h, k, s) && Frees(d, r.events[k].tx, h)
  }

  /** After a creation that took effect its handle is absent exactly when the last
      event since to touch it is a deletion. */
  lemma CreationGoneExactly(d: Device, r: Run, i: nat, s: nat)
    requires IsRun(d, r) && i < |r.events| && i < s < |r.versions| && StepOf(d, r, i)
    requires r.events[i].tx.Create? && Fired(d, r, i)
    ensures var h := d.handleOf(r.events[i].tx.peer);
            HandleKey(h) !in r.versions[s] <==> FreedBetween(d, r, h, i, s)
  {
    hide Formed, Fires, After, Reads, Inv, LastTouch, Untouched;
    var h := d.handleOf(r.events[i].tx.peer);
    CreatedHandle(d, r, i, h);
    HandleExactly(d, r, h, i + 1, s);
    if !Untouched(d, r, h, i + 1, s) {
      var k :| i + 1 <= k && LastTouch(d, r, h, k, s);
      LastIsTouch(d, r, h, k, s);
    }
  }

  lemma CreatedHandle(d: Device, r: Run, i: nat, h: nat)
    requires IsRun(d, r) && i < |r.events| && StepOf(d, r, i) && Fired(d, r, i) && Takes(d, r.events[i].tx, h)
    ensures HandleKey(h) in r.versions[i + 1]
  {
    hide Formed, Fires, Inv;
    StepHandle(d, r.next[i], r.versions[i], r.events[i].tx, r.events[i].fault, h);
  }

  lemma LastIsTouch(d: Device, r: Run, h: nat, k: nat, s: nat)
    requires IsRun(d, r) && s < |r.versions| && LastTouch(d, r, h, k, s)
    ensures k < s && Touches(d, r, h, k)
    ensures (Takes(d, r.events[k].tx, h) || Frees(d, r.events[k].tx, h)) && !(Takes(d, r.events[k].tx, h) && Frees(d, r.events[k].tx, h))
  {
  }

  /** So of a creation that took effect, recovery answers that it left nothing —
      wrongly — exactly when at one of its two readings of the handle a deletion
      was the last to touch it. */
  lemma CreationRecoveryExactly(d: Device, r: Run, i: nat, at: nat, load: nat)
    requires IsRun(d, r) && i < |r.events| && StepOf(d, r, i) && i < at < |r.versions| && i < load < |r.versions|
    requires r.events[i].tx.Create? && Fired(d, r, i)
    ensures var (u, h) := (UnresolvedCreate(d, r.events[i].tx), d.handleOf(r.events[i].tx.peer));
            AnswersLost(r.versions, u, h, [at], load)
            <==> FreedBetween(d, r, h, i, at) || FreedBetween(d, r, h, i, load)
  {
    hide Formed, Fires, After, Reads, Inv, FreedBetween, StepOf;
    CreationGoneExactly(d, r, i, at);
    CreationGoneExactly(d, r, i, load);
    var u := UnresolvedCreate(d, r.events[i].tx);
    assert u.artifacts[0] !in r.versions[[at][0]] <==> HandleKey(d.handleOf(r.events[i].tx.peer)) !in r.versions[at];
  }

  function CreatedThenRemoved(d: Device, p: Identity): Run {
    var create := Create(p, 0, None, 1, 2);
    var base := NewInitiator(d.our, p, 0, None, 1, 2);
    var v1 := Effect(d, 1, map[], create);
    Run([map[], v1, Effect(d, 3, v1, Remove(base))], [1, 3, 3],
        [Event(create, CommitStored, 0, 0), Event(Remove(base), NoFault, 1, 1)])
  }

  /** And it can be removed: a creation with an unknown outcome takes effect,
      another instance removes the session, and recovery answers that it left
      nothing. */
  lemma CreationCanBeUndone(d: Device, p: Identity)
    ensures var r := CreatedThenRemoved(d, p);
            var u := UnresolvedCreate(d, r.events[0].tx);
            && IsRun(d, r) && NoCollision(d, r)
            && StepOf(d, r, 0) && Fired(d, r, 0)
            && ReadsAfter(r.versions, 0, [2], 2)
            && AnswersLost(r.versions, u, d.handleOf(p), [2], 2)
  {
    var r := CreatedThenRemoved(d, p);
    assert StepOf(d, r, 0);
    assert StepOf(d, r, 1);
  }

  // ── First contact and one-time prekeys ────────────────────────────────────

  /** A handshake can be answered exactly with the prekeys it names. */
  lemma AnswerableExactly(prekeys: Prekeys, handshake: InitiatorHandshake)
    requires handshake.InitiatorHandshake?
    ensures CheckAnswerable(prekeys, handshake).None?
            <==> prekeys == Prekeys(handshake.signedPrekey, handshake.oneTimePrekey)
  {
  }

  /** A session is created from a first message only if the message was sealed
      under a key of exactly the X3DH secret the recorded handshake derives. */
  lemma AcceptanceIsAuthentic(d: Device, next: nat, c: Contents, tx: Tx)
    requires tx.Accept? && Formed(d, next, tx) && Fires(d, next, c, tx)
    ensures Lookup(c, ProvisionalKey(d.handleOf(tx.peer))) == Some(ProvisionalRecord(tx.peer, tx.handshake))
    ensures var (hs, cipher) := (tx.handshake, tx.wire.cipher);
            && cipher.Sealed? && cipher.header == tx.wire.header && cipher.ad == Ad(tx.peer, d.our)
            && KeySeed(cipher.key) == Handshake(tx.peer, d.our, hs.ephemeral, hs.signedPrekey, hs.oneTimePrekey)
            && InboxKey(tx.peer, tx.wire) in Effect(d, next, c, tx)
            && Effect(d, next, c, tx)[InboxKey(tx.peer, tx.wire)].incoming.plaintext == cipher.plaintext
  {
    var base := Candidate(d.our, tx.handshake, tx.prekeys);
    var r, w := base.ratchet, tx.wire;
    AnswerableExactly(tx.prekeys, tx.handshake);
    TwoParty.TurnedKey(r, w.header, w.cipher, base.ad, tx.newDh);
    AdvanceKeepsSeed(TwoParty.TurnedChain(r, w.header.dh), w.header.n);
  }

  function HeldOneTime(c: Contents): Option<DhKey> {
    if PrekeysKey in c && c[PrekeysKey].PrekeyRecord? then c[PrekeysKey].prekeys.oneTime else None
  }

  /** Existing prekeys never return; the prekey record changes only by rotation
      or by an acceptance that used its one-time prekey. */
  lemma StepPrekeys(d: Device, next: nat, c: Contents, tx: Tx, fault: Fault)
    requires Formed(d, next, tx)
    ensures var c' := After(d, next, c, tx, fault);
            && (HeldOneTime(c') == HeldOneTime(c) || (HeldOneTime(c').Some? && HeldOneTime(c').value >= next))
            && (Lookup(c', PrekeysKey) != Lookup(c, PrekeysKey) ==>
                  tx.EstablishPrekeys?
                  || (tx.Accept? && tx.prekeys.oneTime.Some? && Fires(d, next, c, tx)
                      && HeldOneTime(c) == tx.prekeys.oneTime))
  {
  }

  lemma {:induction false} SpentStaysSpent(d: Device, r: Run, i: nat, j: nat, k: DhKey)
    requires IsRun(d, r) && i <= j < |r.versions| && k < r.next[i] && HeldOneTime(r.versions[i]) != Some(k)
    ensures HeldOneTime(r.versions[j]) != Some(k)
  {
    if i < j {
      SpentStaysSpent(d, r, i, j - 1, k);
      NextGrows(d, r, i, j - 1);
      assert StepOf(d, r, j - 1);
      StepPrekeys(d, r.next[j - 1], r.versions[j - 1], r.events[j - 1].tx, r.events[j - 1].fault);
    }
  }

  /** No one-time prekey is used by two created sessions, under any interleaving
      with rotation and other instances. */
  lemma OneTimePrekeyUsedOnce(d: Device, r: Run, i: nat, j: nat, k: DhKey)
    requires IsRun(d, r) && NoCollision(d, r) && i < j < |r.events| && StepOf(d, r, i) && StepOf(d, r, j)
    requires r.events[i].tx.Accept? && Fired(d, r, i) && r.events[i].tx.prekeys.oneTime == Some(k)
    requires r.events[j].tx.Accept? && r.events[j].tx.prekeys.oneTime == Some(k)
    ensures !Fired(d, r, j)
  {
    InvAt(d, r, i);
    assert HeldPrekeys(r.next[i], r.versions[i]);
    hide Inv;
    SpentStaysSpent(d, r, i + 1, j, k);
  }

  // ── Two peers under one handle ────────────────────────────────────────────

  const FIRST_ID: ClientId := [116]

  function CollidingSend(d: Device, p: Identity, q: Identity): Tx {
    Send(d.handleOf(p), p, NewInitiator(d.our, q, 0, None, 3, 4), FIRST_ID, Opening, 0)
  }

  lemma CollidingSendFormed(d: Device, p: Identity, q: Identity)
    ensures Formed(d, 5, CollidingSend(d, p, q))
  {
  }

  /** A send reads its handle for `p`, whose session another instance removes
      before the handle passes to `q`; the send then loads `q`'s session. */
  function CollidingVersions(d: Device, p: Identity, q: Identity): (v: seq<Contents>)
    requires p != q && d.handleOf(p) == d.handleOf(q)
    ensures |v| == 5
  {
    var v1 := Effect(d, 1, map[], Create(p, 0, None, 1, 2));
    var v2 := Effect(d, 3, v1, Remove(NewInitiator(d.our, p, 0, None, 1, 2)));
    var v3 := Effect(d, 3, v2, Create(q, 0, None, 3, 4));
    CollidingSendFormed(d, p, q);
    [map[], v1, v2, v3, Effect(d, 5, v3, CollidingSend(d, p, q))]
  }

  function CollidingRun(d: Device, p: Identity, q: Identity): Run
    requires p != q && d.handleOf(p) == d.handleOf(q)
  {
    Run(CollidingVersions(d, p, q), [1, 3, 3, 5, 5],
        [Event(Create(p, 0, None, 1, 2), NoFault, 0, 0),
         Event(Remove(NewInitiator(d.our, p, 0, None, 1, 2)), NoFault, 1, 1),
         Event(Create(q, 0, None, 3, 4), NoFault, 0, 0),
         Event(CollidingSend(d, p, q), NoFault, 3, 1)])
  }

  function Stored(d: Device, p: Identity, base: SessionState, ephemeral: DhKey): Contents {
    map[SessionKey(p) := SessionRecord(base), HandleKey(d.handleOf(p)) := HandleRecord(p),
        HandshakeKey(p) := HandshakeRecord(InitiatorHandshake(d.our, ephemeral, 0, None))]
  }

  lemma CollidingContents(d: Device, p: Identity, q: Identity)
    requires p != q && d.handleOf(p) == d.handleOf(q)
    ensures var v := CollidingVersions(d, p, q);
            && v[0] == map[] && v[1] == Stored(d, p, NewInitiator(d.our, p, 0, None, 1, 2), 1)
            && v[2] == map[] && v[3] == Stored(d, q, NewInitiator(d.our, q, 0, None, 3, 4), 3)
  {
  }

  lemma CollidingSteps(d: Device, p: Identity, q: Identity)
    requires p != q && d.handleOf(p) == d.handleOf(q)
    ensures forall i :: 0 <= i < 3 ==> StepOf(d, CollidingRun(d, p, q), i)
  {
    var r := CollidingRun(d, p, q);
    CollidingContents(d, p, q);
    assert StepOf(d, r, 0);
    assert StepOf(d, r, 1);
    assert StepOf(d, r, 2);
  }

  lemma CollidingLastStep(d: Device, p: Identity, q: Identity)
    requires p != q && d.handleOf(p) == d.handleOf(q)
    ensures StepOf(d, CollidingRun(d, p, q), 3)
    ensures var last := CollidingVersions(d, p, q)[4];
            OutboxKey(p, SentBy(CollidingSend(d, p, q))) in last && SessionKey(p) !in last
  {
    CollidingContents(d, p, q);
    CollidingSendFormed(d, p, q);
  }

  lemma CollisionOrphans(d: Device, p: Identity, q: Identity)
    requires p != q && d.handleOf(p) == d.handleOf(q)
    ensures var r := CollidingRun(d, p, q);
            && IsRun(d, r)
            && OutboxKey(p, SentBy(CollidingSend(d, p, q))) in r.versions[4] && SessionKey(p) !in r.versions[4]
  {
    hide StepOf, CollidingVersions;
    CollidingSteps(d, p, q);
    CollidingLastStep(d, p, q);
    CollidingContents(d, p, q);
  }

  ghost predicate OrphanFree(c: Contents) {
    forall p, id :: OutboxKey(p, id) in c ==> SessionKey(p) in c
  }

  /** Pending messages keep their session in every run exactly if no two peers
      share a handle. */
  lemma OrphanFreeExactly(d: Device)
    ensures (forall r, i :: IsRun(d, r) && 0 <= i < |r.versions| ==> OrphanFree(r.versions[i]))
            <==> (forall p, q :: d.handleOf(p) == d.handleOf(q) ==> p == q)
  {
    if forall p, q :: d.handleOf(p) == d.handleOf(q) ==> p == q {
      forall r, i | IsRun(d, r) && 0 <= i < |r.versions|
        ensures OrphanFree(r.versions[i])
      {
        InvAt(d, r, i);
      }
    } else {
      var p, q :| d.handleOf(p) == d.handleOf(q) && p != q;
      CollisionOrphans(d, p, q);
      assert !OrphanFree(CollidingRun(d, p, q).versions[4]);
    }
  }
}

/** Every run of any number of instances over one store: each event is one
    transaction, attempted on the strength of earlier, possibly stale reads. */
module MessengerRuns {
  import opened Prelude
  import opened RatchetFields
  import opened SymbolicKeys
  import opened RatchetModel
  import opened Staging
  import opened StoreRecords
  import opened ConditionalWrites
  import opened DurableSessions
  import opened MessengerModel
  import opened MessengerInvariant

  /** `loaded` and `listed` are the versions the instance read before it took
      the write lock. */
  datatype Event = Event(tx: Tx, fault: Fault, loaded: nat, listed: nat)

  /** `versions[i + 1]` is what event `i` left; `next[i]` is the first key name
      unused at version `i`. */
  datatype Run = Run(versions: seq<Contents>, next: seq<nat>, events: seq<Event>)

  /** What the separate reads of an operation showed. A send reads its handle
      twice: once for the message records, once for the session. A removal or
      retirement lists the outbox after loading the session. */
  ghost predicate Reads(versions: seq<Contents>, i: nat, e: Event)
    requires i < |versions|
  {
    match e.tx
    case Send(handle, index, base, _, _, _) =>
      && e.listed <= i && e.loaded <= i
      && Lookup(versions[e.listed], HandleKey(handle)) == Some(HandleRecord(index))
      && Lookup(versions[e.loaded], HandleKey(handle)) == Some(HandleRecord(base.peer))
    case Remove(base) => ListedEmpty(versions, i, e, base)
    case Retire(base, _, _) => ListedEmpty(versions, i, e, base)
    case _ => true
  }

  ghost predicate ListedEmpty(versions: seq<Contents>, i: nat, e: Event, base: SessionState)
    requires i < |versions|
  {
    && e.loaded <= e.listed <= i
    && Lookup(versions[e.loaded], SessionKey(base.peer)) == Some(SessionRecord(base))
    && NoPending(versions[e.listed], base.peer)
  }

  ghost predicate StepOf(d: Device, r: Run, i: nat)
    requires |r.versions| == |r.next| == |r.events| + 1 && i < |r.events|
  {
    var e := r.events[i];
    && Formed(d, r.next[i], e.tx)
    && r.next[i] <= r.next[i + 1] && NextAfter(r.next[i], e.tx) <= r.next[i + 1]
    && Reads(r.versions, i, e)
    && r.versions[i + 1] == After(d, r.next[i], r.versions[i], e.tx, e.fault)
  }

  ghost predicate IsRun(d: Device, r: Run) {
    && |r.versions| == |r.next| == |r.events| + 1
    && Inv(d, r.next[0], r.versions[0])
    && forall i :: 0 <= i < |r.events| ==> StepOf(d, r, i)
  }

  /** No send's two handle reads show two peers that share the handle. */
  predicate NoCollision(d: Device, r: Run) {
    forall i :: 0 <= i < |r.events| && r.events[i].tx.Send?
                && d.handleOf(r.events[i].tx.index) == d.handleOf(r.events[i].tx.base.peer) ==>
      r.events[i].tx.index == r.events[i].tx.base.peer
  }

  /** Event `i` took effect. */
  predicate Fired(d: Device, r: Run, i: nat)
    requires |r.versions| == |r.next| == |r.events| + 1 && i < |r.events|
    requires Formed(d, r.next[i], r.events[i].tx)
  {
    Kept(r.events[i].fault) && Fires(d, r.next[i], r.versions[i], r.events[i].tx)
  }

  // ── A session record, once replaced, never comes back ─────────────────────

  /** Session records are ordered by the sending key, then the generation. */
  predicate Older(s: SessionState, t: SessionState) {
    s.ratchet.dhs < t.ratchet.dhs || (s.ratchet.dhs == t.ratchet.dhs && s.generation < t.generation)
  }

  lemma StepOrders(d: Device, next: nat, c: Contents, tx: Tx, fault: Fault, p: Identity)
    requires Inv(d, next, c) && Formed(d, next, tx)
    requires SessionKey(p) in After(d, next, c, tx, fault)
    ensures var t := After(d, next, c, tx, fault)[SessionKey(p)];
            && t.SessionRecord?
            && (SessionKey(p) in c ==> t == c[SessionKey(p)] || Older(c[SessionKey(p)].session, t.session))
            && (SessionKey(p) !in c ==> t.session.ratchet.dhs >= next)
  {
    if tx.Send? && Fires(d, next, c, tx) {
      SendStaged(tx.base, tx.plaintext, tx.nonce);
    } else if tx.Receive? && Fires(d, next, c, tx) {
      ReceiveStaged(tx.base, tx.wire, tx.newDh);
    } else if tx.Accept? {
      ReceiveStaged(Candidate(d.our, tx.handshake, tx.prekeys), tx.wire, tx.newDh);
    }
  }

  ghost predicate InvUpTo(d: Device, r: Run, n: nat)
    requires IsRun(d, r) && n < |r.versions|
  {
    forall i :: 0 <= i <= n ==> Inv(d, r.next[i], r.versions[i])
  }

  lemma {:induction false} NextGrows(d: Device, r: Run, i: nat, j: nat)
    requires IsRun(d, r) && i <= j < |r.versions|
    ensures r.next[i] <= r.next[j]
  {
    if i < j {
      NextGrows(d, r, i, j - 1);
      assert StepOf(d, r, j - 1);
    }
  }

  /** A session created after version `i` sends under a key unused then. */
  lemma {:induction false} CreatedIsFresh(d: Device, r: Run, i: nat, j: nat, p: Identity)
    requires IsRun(d, r) && i <= j < |r.versions| && InvUpTo(d, r, j)
    requires SessionKey(p) !in r.versions[i] && SessionKey(p) in r.versions[j]
    ensures r.versions[j][SessionKey(p)].session.ratchet.dhs >= r.next[i]
  {
    hide Inv;
    var e := r.events[j - 1];
    assert StepOf(d, r, j - 1);
    assert Inv(d, r.next[j - 1], r.versions[j - 1]);
    StepOrders(d, r.next[j - 1], r.versions[j - 1], e.tx, e.fault, p);
    NextGrows(d, r, i, j - 1);
    if SessionKey(p) in r.versions[j - 1] {
      CreatedIsFresh(d, r, i, j - 1, p);
    }
  }

  lemma {:induction false} Ordered(d: Device, r: Run, i: nat, j: nat, p: Identity)
    requires IsRun(d, r) && i <= j < |r.versions| && InvUpTo(d, r, j)
    requires SessionKey(p) in r.versions[i] && SessionKey(p) in r.versions[j]
    ensures r.versions[i][SessionKey(p)].SessionRecord? && r.versions[j][SessionKey(p)].SessionRecord?
    ensures r.versions[i][SessionKey(p)] == r.versions[j][SessionKey(p)]
            || Older(r.versions[i][SessionKey(p)].session, r.versions[j][SessionKey(p)].session)
  {
    assert Inv(d, r.next[i], r.versions[i]);
    if i < j {
      var k := j - 1;
      var e := r.events[k];
      assert StepOf(d, r, k);
      assert Inv(d, r.next[k], r.versions[k]);
      hide Inv;
      StepOrders(d, r.next[k], r.versions[k], e.tx, e.fault, p);
      if SessionKey(p) in r.versions[k] {
        Ordered(d, r, i, k, p);
      } else {
        NextGrows(d, r, i, k);
      }
    }
  }

  /** A session record found at two versions was there all along. */
  lemma Unbroken(d: Device, r: Run, i: nat, k: nat, j: nat, p: Identity, s: Record)
    requires IsRun(d, r) && i <= k <= j < |r.versions| && InvUpTo(d, r, j)
    requires Lookup(r.versions[i], SessionKey(p)) == Some(s) && Lookup(r.versions[j], SessionKey(p)) == Some(s)
    ensures Lookup(r.versions[k], SessionKey(p)) == Some(s)
  {
    assert Inv(d, r.next[i], r.versions[i]);
    hide Inv;
    if SessionKey(p) in r.versions[k] {
      Ordered(d, r, i, k, p);
      Ordered(d, r, k, j, p);
    } else {
      CreatedIsFresh(d, r, k, j, p);
      NextGrows(d, r, i, k);
    }
  }

  // ── The invariant holds at every version ──────────────────────────────────

  /** Only a transition of the session itself adds a pending message. */
  lemma StepAddsNothing(d: Device, next: nat, c: Contents, tx: Tx, fault: Fault, p: Identity)
    requires Inv(d, next, c) && Formed(d, next, tx) && (tx.Send? ==> tx.index == tx.base.peer)
    requires NoPending(c, p) && SessionKey(p) in c
    requires Lookup(After(d, next, c, tx, fault), SessionKey(p)) == Lookup(c, SessionKey(p))
    ensures NoPending(After(d, next, c, tx, fault), p)
  {
  }

  lemma {:induction false} NothingAdded(d: Device, r: Run, i: nat, j: nat, p: Identity, s: Record)
    requires IsRun(d, r) && i <= j < |r.versions| && InvUpTo(d, r, j)
    requires NoPending(r.versions[i], p)
    requires forall k :: i <= k <= j ==> Lookup(r.versions[k], SessionKey(p)) == Some(s)
    requires forall k :: i <= k < j ==> r.events[k].tx.Send? ==> r.events[k].tx.index == r.events[k].tx.base.peer
    ensures NoPending(r.versions[j], p)
  {
    if i < j {
      NothingAdded(d, r, i, j - 1, p, s);
      var e := r.events[j - 1];
      assert StepOf(d, r, j - 1);
      assert Inv(d, r.next[j - 1], r.versions[j - 1]);
      hide Inv;
      StepAddsNothing(d, r.next[j - 1], r.versions[j - 1], e.tx, e.fault, p);
    }
  }

  /** Both handle reads of a send show the peer whose session it uses. */
  lemma SendsUnderItsPeer(d: Device, r: Run, i: nat)
    requires IsRun(d, r) && NoCollision(d, r) && i < |r.events| && InvUpTo(d, r, i) && r.events[i].tx.Send?
    ensures r.events[i].tx.index == r.events[i].tx.base.peer
  {
    var e := r.events[i];
    assert StepOf(d, r, i);
    assert Inv(d, r.next[e.listed], r.versions[e.listed]);
    assert Inv(d, r.next[e.loaded], r.versions[e.loaded]);
  }

  /** When a removal or retirement commits, what it listed is still all there is. */
  lemma NothingPendingOnRemoval(d: Device, r: Run, i: nat)
    requires IsRun(d, r) && NoCollision(d, r) && i < |r.events| && InvUpTo(d, r, i)
    requires r.events[i].tx.Remove? || r.events[i].tx.Retire?
    requires StepOf(d, r, i) && Fires(d, r.next[i], r.versions[i], r.events[i].tx)
    ensures NoPending(r.versions[i], r.events[i].tx.base.peer)
  {
    hide Inv;
    var e := r.events[i];
    var p, s := e.tx.base.peer, SessionRecord(e.tx.base);
    forall k | e.listed <= k <= i
      ensures Lookup(r.versions[k], SessionKey(p)) == Some(s)
    {
      Unbroken(d, r, e.loaded, k, i, p, s);
    }
    forall k | e.listed <= k < i && r.events[k].tx.Send?
      ensures r.events[k].tx.index == r.events[k].tx.base.peer
    {
      SendsUnderItsPeer(d, r, k);
    }
    NothingAdded(d, r, e.listed, i, p, s);
  }

  /** Every version of every run satisfies the invariant. */
  lemma {:induction false} RunKeepsInv(d: Device, r: Run, n: nat)
    requires IsRun(d, r) && NoCollision(d, r) && n < |r.versions|
    ensures InvUpTo(d, r, n)
  {
    if n > 0 {
      var i, e := n - 1, r.events[n - 1];
      RunKeepsInv(d, r, i);
      assert StepOf(d, r, i);
      assert Inv(d, r.next[i], r.versions[i]);
      hide Inv;
      if Fires(d, r.next[i], r.versions[i], e.tx) {
        if e.tx.Send? {
          SendsUnderItsPeer(d, r, i);
        } else if e.tx.Remove? || e.tx.Retire? {
          NothingPendingOnRemoval(d, r, i);
        }
      }
      StepKeeps(d, r.next[i], r.next[n], r.versions[i], e.tx, e.fault);
    }
  }

  lemma InvAt(d: Device, r: Run, i: nat)
    requires IsRun(d, r) && NoCollision(d, r) && i < |r.versions|
    ensures Inv(d, r.next[i], r.versions[i])
  {
    RunKeepsInv(d, r, i);
  }

  /** Before an event, everything one step needs. */
  lemma StepAt(d: Device, r: Run, i: nat)
    requires IsRun(d, r) && NoCollision(d, r) && i < |r.events|
    ensures StepOf(d, r, i) && Inv(d, r.next[i], r.versions[i])
    ensures r.events[i].tx.Send? ==> r.events[i].tx.index == r.events[i].tx.base.peer
    ensures Fires(d, r.next[i], r.versions[i], r.events[i].tx) ==> Safe(r.versions[i], r.events[i].tx)
  {
    RunKeepsInv(d, r, i);
    assert StepOf(d, r, i);
    hide Inv;
    if r.events[i].tx.Send? {
      SendsUnderItsPeer(d, r, i);
    } else if (r.events[i].tx.Remove? || r.events[i].tx.Retire?) && Fires(d, r.next[i], r.versions[i], r.events[i].tx) {
      NothingPendingOnRemoval(d, r, i);
    }
  }
}

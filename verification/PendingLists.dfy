/** Listing what is pending, in the order it was committed. */
module PendingLists {
  import opened Prelude
  import opened SymbolicKeys
  import opened StoreRecords
  import opened ConditionalWrites
  import opened Storage
  import opened MessengerModel
  import opened Messaging
  import opened MessagingReports
  import opened MessengerCauses

  predicate ByGeneration<T>(s: seq<T>, generation: T -> U64) {
    forall i, j :: 0 <= i < j < |s| ==> generation(s[i]) <= generation(s[j])
  }

  /** The place of `m`: everything before it is no younger, everything after it is younger. */
  method Place<T>(s: seq<T>, m: T, generation: T -> U64) returns (i: nat)
    requires ByGeneration(s, generation)
    ensures i <= |s|
    ensures forall j :: 0 <= j < i ==> generation(s[j]) <= generation(m)
    ensures forall j :: i <= j < |s| ==> generation(m) < generation(s[j])
  {
    i := |s|;
    while i > 0 && generation(s[i - 1]) > generation(m)
      invariant i <= |s|
      invariant forall j :: i <= j < |s| ==> generation(m) < generation(s[j])
    {
      i := i - 1;
    }
  }

  lemma InsertedAt<T>(s: seq<T>, i: nat, m: T, generation: T -> U64)
    requires ByGeneration(s, generation) && i <= |s|
    requires forall j :: 0 <= j < i ==> generation(s[j]) <= generation(m)
    requires forall j :: i <= j < |s| ==> generation(m) < generation(s[j])
    ensures ByGeneration(s[..i] + [m] + s[i..], generation)
    ensures multiset(s[..i] + [m] + s[i..]) == multiset(s) + multiset{m}
  {
    hide ByGeneration<T>;
    assert multiset(s) == multiset(s[..i]) + multiset(s[i..]) by {
      assert s == s[..i] + s[i..];
    }
    InsertedInOrder(s, i, m, generation);
  }

  lemma InsertedInOrder<T>(s: seq<T>, i: nat, m: T, generation: T -> U64)
    requires ByGeneration(s, generation) && i <= |s|
    requires forall j :: 0 <= j < i ==> generation(s[j]) <= generation(m)
    requires forall j :: i <= j < |s| ==> generation(m) < generation(s[j])
    ensures ByGeneration(s[..i] + [m] + s[i..], generation)
  {
    var t := s[..i] + [m] + s[i..];
    forall a, b | 0 <= a < b < |t|
      ensures generation(t[a]) <= generation(t[b])
    {
      assert a < i ==> t[a] == s[a];
      assert a > i ==> t[a] == s[a - 1];
      assert b < i ==> t[b] == s[b];
      assert b > i ==> t[b] == s[b - 1];
    }
  }

  method Insert<T>(s: seq<T>, m: T, generation: T -> U64) returns (t: seq<T>)
    requires ByGeneration(s, generation)
    ensures ByGeneration(t, generation) && multiset(t) == multiset(s) + multiset{m}
  {
    var i := Place(s, m, generation);
    InsertedAt(s, i, m, generation);
    t := s[..i] + [m] + s[i..];
  }

  function ReceivedAt(m: IncomingMessage): U64 {
    m.generation
  }

  function SentAt(m: OutgoingMessage): U64 {
    m.generation
  }

  /** Some version shows `m` in the row of `id` in the peer's inbox. */
  ghost predicate ShowsInbox(versions: seq<Contents>, p: Identity, id: MessageId, m: IncomingMessage) {
    exists k :: 0 <= k < |versions| && Lookup(versions[k], InboxKey(p, id)) == Some(InboxRecord(m))
  }

  ghost predicate ShowsOutbox(versions: seq<Contents>, p: Identity, id: MessageId, m: OutgoingMessage) {
    exists k :: 0 <= k < |versions| && Lookup(versions[k], OutboxKey(p, id)) == Some(OutboxRecord(m)) && DecodesOutbox(OutboxRecord(m))
  }

  ghost predicate ReadIncoming(versions: seq<Contents>, p: Identity, m: IncomingMessage) {
    exists id :: ShowsInbox(versions, p, id, m)
  }

  ghost predicate ReadOutgoing(versions: seq<Contents>, p: Identity, m: OutgoingMessage) {
    exists id :: ShowsOutbox(versions, p, id, m)
  }

  ghost predicate InboxListed(versions: seq<Contents>, p: Identity, id: MessageId, ms: seq<IncomingMessage>) {
    exists m :: m in ms && ShowsInbox(versions, p, id, m)
  }

  ghost predicate OutboxListed(versions: seq<Contents>, p: Identity, id: MessageId, ms: seq<OutgoingMessage>) {
    exists m :: m in ms && ShowsOutbox(versions, p, id, m)
  }

  lemma ShowsInboxLater(versions: seq<Contents>, later: seq<Contents>, p: Identity, id: MessageId, m: IncomingMessage)
    requires versions <= later && ShowsInbox(versions, p, id, m)
    ensures ShowsInbox(later, p, id, m)
  {
    var k :| 0 <= k < |versions| && Lookup(versions[k], InboxKey(p, id)) == Some(InboxRecord(m));
    assert Lookup(later[k], InboxKey(p, id)) == Some(InboxRecord(m));
  }

  lemma ShowsOutboxLater(versions: seq<Contents>, later: seq<Contents>, p: Identity, id: MessageId, m: OutgoingMessage)
    requires versions <= later && ShowsOutbox(versions, p, id, m)
    ensures ShowsOutbox(later, p, id, m)
  {
    var k :| 0 <= k < |versions| && Lookup(versions[k], OutboxKey(p, id)) == Some(OutboxRecord(m)) && DecodesOutbox(OutboxRecord(m));
    assert Lookup(later[k], OutboxKey(p, id)) == Some(OutboxRecord(m));
  }

  function InboxIds(keys: set<StoreKey>, p: Identity): set<MessageId> {
    set key | key in keys && key.InboxKey? && key.peer == p :: key.id
  }

  function OutboxIds(keys: set<StoreKey>, p: Identity): set<MessageId> {
    set key | key in keys && key.OutboxKey? && key.peer == p :: key.id
  }

  lemma InsertedMembers<T>(s: seq<T>, t: seq<T>, m: T)
    requires multiset(t) == multiset(s) + multiset{m}
    ensures |t| == |s| + 1 && m in t
    ensures forall x :: x in t <==> x in s || x == m
  {
    assert |multiset(t)| == |t| && |multiset(s)| == |s|;
    forall x
      ensures x in t <==> x in s || x == m
    {
      assert x in t <==> x in multiset(t);
      assert x in s <==> x in multiset(s);
    }
  }

  /** The list so far: one message for each row read, and nothing else. */
  ghost predicate GatheredIncoming(versions: seq<Contents>, p: Identity, done: set<MessageId>, out: seq<IncomingMessage>) {
    && |out| == |done|
    && ByGeneration(out, ReceivedAt)
    && (forall m :: m in out ==> ReadIncoming(versions, p, m))
    && (forall id :: id in done ==> InboxListed(versions, p, id, out))
  }

  ghost predicate GatheredOutgoing(versions: seq<Contents>, p: Identity, done: set<MessageId>, out: seq<OutgoingMessage>) {
    && |out| == |done|
    && ByGeneration(out, SentAt)
    && (forall m :: m in out ==> ReadOutgoing(versions, p, m))
    && (forall id :: id in done ==> OutboxListed(versions, p, id, out))
  }

  lemma GatherIncoming(versions: seq<Contents>, later: seq<Contents>, p: Identity, done: set<MessageId>, out: seq<IncomingMessage>,
                       id: MessageId, m: IncomingMessage, out': seq<IncomingMessage>)
    requires versions <= later && GatheredIncoming(versions, p, done, out) && id !in done
    requires ShowsInbox(later, p, id, m)
    requires ByGeneration(out', ReceivedAt) && multiset(out') == multiset(out) + multiset{m}
    ensures GatheredIncoming(later, p, done + {id}, out')
  {
    hide ShowsInbox, ByGeneration;
    InsertedMembers(out, out', m);
    forall x | x in out'
      ensures ReadIncoming(later, p, x)
    {
      if x in out {
        var row :| ShowsInbox(versions, p, row, x);
        ShowsInboxLater(versions, later, p, row, x);
      }
    }
    forall row | row in done
      ensures InboxListed(later, p, row, out')
    {
      var x :| x in out && ShowsInbox(versions, p, row, x);
      ShowsInboxLater(versions, later, p, row, x);
    }
    assert InboxListed(later, p, id, out');
  }

  lemma GatherOutgoing(versions: seq<Contents>, later: seq<Contents>, p: Identity, done: set<MessageId>, out: seq<OutgoingMessage>,
                       id: MessageId, m: OutgoingMessage, out': seq<OutgoingMessage>)
    requires versions <= later && GatheredOutgoing(versions, p, done, out) && id !in done
    requires ShowsOutbox(later, p, id, m)
    requires ByGeneration(out', SentAt) && multiset(out') == multiset(out) + multiset{m}
    ensures GatheredOutgoing(later, p, done + {id}, out')
  {
    hide ShowsOutbox, ByGeneration;
    InsertedMembers(out, out', m);
    forall x | x in out'
      ensures ReadOutgoing(later, p, x)
    {
      if x in out {
        var row :| ShowsOutbox(versions, p, row, x);
        ShowsOutboxLater(versions, later, p, row, x);
      }
    }
    forall row | row in done
      ensures OutboxListed(later, p, row, out')
    {
      var x :| x in out && ShowsOutbox(versions, p, row, x);
      ShowsOutboxLater(versions, later, p, row, x);
    }
    assert OutboxListed(later, p, id, out');
  }

  lemma GatheredOutgoingLater(versions: seq<Contents>, later: seq<Contents>, p: Identity, done: set<MessageId>,
                              out: seq<OutgoingMessage>)
    requires versions <= later && GatheredOutgoing(versions, p, done, out)
    ensures GatheredOutgoing(later, p, done, out)
  {
    hide ShowsOutbox, ByGeneration;
    forall x | x in out
      ensures ReadOutgoing(later, p, x)
    {
      var row :| ShowsOutbox(versions, p, row, x);
      ShowsOutboxLater(versions, later, p, row, x);
    }
    forall row | row in done
      ensures OutboxListed(later, p, row, out)
    {
      var x :| x in out && ShowsOutbox(versions, p, row, x);
      ShowsOutboxLater(versions, later, p, row, x);
    }
  }

  lemma InboxIdListed(keys: set<StoreKey>, p: Identity, id: MessageId)
    requires id in InboxIds(keys, p)
    ensures InboxKey(p, id) in keys
  {
  }

  /** One listed row. */
  method ReadInbox(store: EncryptedStore, p: Identity, id: MessageId) returns (r: Result<IncomingMessage, MessagingError>)
    requires store.Valid()
    modifies store
    ensures store.Valid() && old(store.versions) <= store.versions
    ensures r.Ok? ==> Lookup(store.contents, InboxKey(p, id)) == Some(InboxRecord(r.value))
    ensures r.Err? ==> InboxRowError(store.contents, p, id) == Some(r.error)
  {
    var record := store.Get(InboxKey(p, id));
    match record
    case None => return Err(StoreFailure);
    case Some(Unreadable) => return Err(StoreFailure);
    case Some(InboxRecord(m)) => return Ok(m);
    case Some(_) => return Err(InvalidRecord);
  }

  /** Every message the inbox of the handle's peer listed, as each read then
      showed it, oldest generation first. */
  method ListIncoming(core: Messenger, store: EncryptedStore, handle: nat)
    returns (r: Result<seq<IncomingMessage>, MessagingError>, ghost p: Identity, ghost listed: nat)
    requires store.Valid()
    modifies store
    ensures store.Valid() && old(store.versions) <= store.versions
    ensures r.Ok? ==>
              && HandleShowed(store.versions, handle, p) && |old(store.versions)| <= listed + 1 && listed < |store.versions|
              && GatheredIncoming(store.versions, p, InboxIds(store.versions[listed].Keys, p), r.value)
    ensures r.Err? ==> InboxListFailed(store.versions, |old(store.versions)|, handle, r.error)
  {
    hide GatheredIncoming, ShowsInbox, ByGeneration, InboxIds, HandleShowed, Named, HandleFailed, InboxListFailed, InboxRowError;
    listed := 0;
    ghost var since := |store.versions|;
    var peer := core.RequirePeer(store, handle);
    if peer.Err? {
      ListHandleFails(store.versions, since, handle, |store.versions| - 1, peer.error);
      return Err(peer.error), 0, listed;
    }
    ghost var seen := store.versions;
    p := peer.value;
    HandleShownLast(store.versions, handle, p);
    var keys := store.ListKeys();
    listed := |store.versions| - 1;
    ghost var all := InboxIds(keys, p);
    var todo, out := InboxIds(keys, peer.value), [];
    NothingGatheredIncoming(store.versions, p);
    assert all - todo == {};
    while todo != {}
      invariant store.Valid() && old(store.versions) <= store.versions && seen <= store.versions
      invariant |old(store.versions)| <= listed + 1 && listed < |store.versions|
      invariant todo <= all && all == InboxIds(store.versions[listed].Keys, p)
      invariant GatheredIncoming(store.versions, p, all - todo, out)
      decreases |todo|
    {
      var id :| id in todo;
      InboxIdListed(store.versions[listed].Keys, p, id);
      ghost var before := store.versions;
      var record := ReadInbox(store, peer.value, id);
      if record.Err? {
        assert seen[|seen| - 1] == store.versions[|seen| - 1];
        InboxRowFails(store.versions, since, handle, p, |seen| - 1, id, listed, record.error);
        return Err(record.error), p, listed;
      }
      ghost var done := all - todo;
      todo := todo - {id};
      assert all - todo == done + {id};
      assert ShowsInbox(store.versions, p, id, record.value) by {
        InboxShownLast(store.versions, p, id, record.value);
      }
      ghost var was := out;
      assert ByGeneration(out, ReceivedAt) by {
        GatheredInOrder(before, p, done, out);
      }
      out := Insert(out, record.value, ReceivedAt);
      GatherIncoming(before, store.versions, p, done, was, id, record.value, out);
    }
    assert all - todo == all;
    HandleShownLater(seen, store.versions, handle, p);
    return Ok(out), p, listed;
  }

  lemma HandleShownLast(versions: seq<Contents>, handle: nat, p: Identity)
    requires |versions| > 0 && Lookup(versions[|versions| - 1], HandleKey(handle)) == Some(HandleRecord(p))
    ensures HandleShowed(versions, handle, p)
  {
  }

  lemma HandleShownLater(versions: seq<Contents>, later: seq<Contents>, handle: nat, p: Identity)
    requires versions <= later && HandleShowed(versions, handle, p)
    ensures HandleShowed(later, handle, p)
  {
    var k :| 0 <= k < |versions| && Lookup(versions[k], HandleKey(handle)) == Some(HandleRecord(p));
    assert Lookup(later[k], HandleKey(handle)) == Some(HandleRecord(p));
  }

  lemma NothingGatheredIncoming(versions: seq<Contents>, p: Identity)
    ensures GatheredIncoming(versions, p, {}, [])
  {
  }

  lemma NothingGatheredOutgoing(versions: seq<Contents>, p: Identity)
    ensures GatheredOutgoing(versions, p, {}, [])
  {
  }

  lemma InboxShownLast(versions: seq<Contents>, p: Identity, id: MessageId, m: IncomingMessage)
    requires |versions| > 0 && Lookup(versions[|versions| - 1], InboxKey(p, id)) == Some(InboxRecord(m))
    ensures ShowsInbox(versions, p, id, m)
  {
  }

  lemma GatheredInOrder(versions: seq<Contents>, p: Identity, done: set<MessageId>, out: seq<IncomingMessage>)
    requires GatheredIncoming(versions, p, done, out)
    ensures ByGeneration(out, ReceivedAt)
  {
  }

  lemma OutboxShownLast(versions: seq<Contents>, p: Identity, id: MessageId, m: OutgoingMessage)
    requires |versions| > 0 && Lookup(versions[|versions| - 1], OutboxKey(p, id)) == Some(OutboxRecord(m))
    requires DecodesOutbox(OutboxRecord(m))
    ensures ShowsOutbox(versions, p, id, m)
  {
  }

  lemma GatheredOutInOrder(versions: seq<Contents>, p: Identity, done: set<MessageId>, out: seq<OutgoingMessage>)
    requires GatheredOutgoing(versions, p, done, out)
    ensures ByGeneration(out, SentAt)
  {
  }

  lemma OutboxIdListed(keys: set<StoreKey>, p: Identity, id: MessageId)
    requires id in OutboxIds(keys, p)
    ensures OutboxKey(p, id) in keys
  {
  }

  /** One listed row. */
  method ReadOutbox(store: EncryptedStore, p: Identity, id: MessageId) returns (r: Result<OutgoingMessage, MessagingError>)
    requires store.Valid()
    modifies store
    ensures store.Valid() && old(store.versions) <= store.versions
    ensures r.Ok? ==> Lookup(store.contents, OutboxKey(p, id)) == Some(OutboxRecord(r.value)) && DecodesOutbox(OutboxRecord(r.value))
    ensures r.Err? ==> OutboxRowError(store.contents, p, id) == Some(r.error)
  {
    var record := store.Get(OutboxKey(p, id));
    match record
    case None => return Err(StoreFailure);
    case Some(Unreadable) => return Err(StoreFailure);
    case Some(OutboxRecord(m)) => return if DecodesOutbox(record.value) then Ok(m) else Err(InvalidRecord);
    case Some(_) => return Err(InvalidRecord);
  }

  method ListOutgoing(core: Messenger, store: EncryptedStore, handle: nat)
    returns (r: Result<seq<OutgoingMessage>, MessagingError>, ghost p: Identity, ghost listed: nat)
    requires store.Valid()
    modifies store
    ensures store.Valid() && old(store.versions) <= store.versions
    ensures r.Ok? ==>
              && HandleShowed(store.versions, handle, p) && |old(store.versions)| <= listed + 1 && listed < |store.versions|
              && GatheredOutgoing(store.versions, p, OutboxIds(store.versions[listed].Keys, p), r.value)
    ensures r.Err? ==> OutboxListFailed(store.versions, |old(store.versions)|, handle, r.error)
  {
    hide GatheredOutgoing, ShowsOutbox, ByGeneration, OutboxIds, DecodesOutbox, HandleShowed, Named, HandleFailed,
         OutboxListFailed, OutboxRowError;
    listed := 0;
    ghost var since := |store.versions|;
    var peer := core.RequirePeer(store, handle);
    if peer.Err? {
      ListHandleFails(store.versions, since, handle, |store.versions| - 1, peer.error);
      return Err(peer.error), 0, listed;
    }
    ghost var seen := store.versions;
    p := peer.value;
    HandleShownLast(store.versions, handle, p);
    var keys := store.ListKeys();
    listed := |store.versions| - 1;
    ghost var all := OutboxIds(keys, p);
    var todo, out := OutboxIds(keys, peer.value), [];
    NothingGatheredOutgoing(store.versions, p);
    assert all - todo == {};
    while todo != {}
      invariant store.Valid() && old(store.versions) <= store.versions && seen <= store.versions
      invariant |old(store.versions)| <= listed + 1 && listed < |store.versions|
      invariant todo <= all && all == OutboxIds(store.versions[listed].Keys, p)
      invariant GatheredOutgoing(store.versions, p, all - todo, out)
      decreases |todo|
    {
      var id :| id in todo;
      OutboxIdListed(store.versions[listed].Keys, p, id);
      ghost var before := store.versions;
      var record := ReadOutbox(store, peer.value, id);
      if record.Err? {
        assert seen[|seen| - 1] == store.versions[|seen| - 1];
        OutboxRowFails(store.versions, since, handle, p, |seen| - 1, id, listed, record.error);
        return Err(record.error), p, listed;
      }
      ghost var done := all - todo;
      todo := todo - {id};
      assert all - todo == done + {id};
      assert ShowsOutbox(store.versions, p, id, record.value) by {
        OutboxShownLast(store.versions, p, id, record.value);
      }
      ghost var was := out;
      assert ByGeneration(out, SentAt) by {
        GatheredOutInOrder(before, p, done, out);
      }
      out := Insert(out, record.value, SentAt);
      GatherOutgoing(before, store.versions, p, done, was, id, record.value, out);
    }
    assert all - todo == all;
    HandleShownLater(seen, store.versions, handle, p);
    return Ok(out), p, listed;
  }
}

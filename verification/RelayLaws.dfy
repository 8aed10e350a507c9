/** What each request does to a mailbox, entry by entry, and over whole runs. */
module RelayLaws {
  import opened Prelude
  import opened Bytes
  import opened RelayProtocol
  import opened RelayModel

  /** Within its time to live. */
  predicate Unexpired(e: Entry, now: nat, config: Config) {
    config.ttl > 0 && now < e.stored + config.ttl
  }

  /** No mailbox but that of `key` changed, and no bundle. */
  ghost predicate OnlyBox(s: State, t: State, key: Key32) {
    t.bundles == s.bundles && forall k :: k != key ==> Box(t, k) == Box(s, k)
  }

  // ── Which entries stay ────────────────────────────────────────────────────

  lemma {:induction false} LiveExactly(m: Mailbox, now: nat, config: Config)
    ensures forall e :: e in Live(m, now, config.ttl) <==> e in m && Unexpired(e, now, config)
  {
    if m != [] {
      LiveExactly(m[1..], now, config);
      assert m == [m[0]] + m[1..];
    }
  }

  lemma {:induction false} WithoutExactly(m: Mailbox, number: nat)
    ensures forall e :: e in Without(m, number) <==> e in m && e.number != number
  {
    if m != [] {
      WithoutExactly(m[1..], number);
      assert m == [m[0]] + m[1..];
    }
  }

  lemma {:induction false} WithoutAllExactly(m: Mailbox, numbers: seq<U64>)
    ensures forall e :: e in WithoutAll(m, numbers) <==> e in m && e.number !in numbers
  {
    if numbers != [] {
      var init := numbers[..|numbers| - 1];
      assert numbers == init + [numbers[|numbers| - 1]];
      WithoutAllExactly(m, init);
      WithoutExactly(WithoutAll(m, init), numbers[|numbers| - 1]);
    }
  }

  /** A delete removes exactly the entries it names, and leaves the others in
      order and everything else alone. */
  lemma DeleteExactly(s: State, key: Key32, seqs: seq<U64>, now: nat, config: Config)
    ensures var (t, r) := Handle(s, Delete(key, seqs), now, config);
            && r == Done && t.next == s.next && OnlyBox(s, t, key)
            && Thinned(Box(s, key), Box(t, key))
            && forall e :: e in Box(t, key) <==> e in Box(s, key) && e.number !in seqs
  {
    WithoutAllExactly(Box(s, key), seqs);
    WithoutAllThins(Box(s, key), seqs);
    Self(Box(s, key));
  }

  lemma FetchHandled(s: State, key: Key32, after: nat, max: nat, now: nat, config: Config)
    ensures var t := HandleFetch(s, key, after, max, now, config).0;
            && t.next == s.next && OnlyBox(s, t, key) && Thinned(Box(s, key), Box(t, key))
            && forall e :: e in Box(t, key) <==> e in Box(s, key) && Unexpired(e, now, config)
  {
    LiveExactly(Box(s, key), now, config);
    LiveThins(Box(s, key), now, config.ttl);
  }

  lemma ItemsFit(m: Mailbox)
    ensures |EncodeResponse(Items(AsItems(m)))| == 3 + Size(m)
  {
    hide EncodeItems;
    ItemsLength(m);
    hide ToBe;
  }

  /** A fetch drops what expired and nothing else. It answers, in order, with the
      entries after the cursor, none left out, as many as were asked for; it stops
      earlier only at the end of the mailbox or where the next entry would
      overrun the frame. */
  lemma FetchExactly(s: State, key: Key32, after: nat, max: nat, now: nat, config: Config) returns (k: nat, n: nat)
    requires Sound(s, config)
    ensures var (t, r) := HandleFetch(s, key, after, max, now, config);
            var m := Box(t, key);
            && t.next == s.next && OnlyBox(s, t, key) && Ascending(m) && k + n <= |m|
            && (forall e :: e in m <==> e in Box(s, key) && Unexpired(e, now, config))
            && (forall i :: 0 <= i < |m| ==> (m[i].number > after <==> i >= k))
            && r == Items(AsItems(m[k..k + n])) && n <= Min(max, MAX_FETCH) && |EncodeResponse(r)| <= MAX_FRAME
            && (n < Min(max, MAX_FETCH) && k + n < |m| ==> |EncodeResponse(Items(AsItems(m[k..k + n + 1])))| > MAX_FRAME)
  {
    var m := Live(Box(s, key), now, config.ttl);
    FetchHandled(s, key, after, max, now, config);
    FetchIs(s, key, after, max, now, config);
    LiveIsGood(s, key, now, config);
    hide Sound, Live, HandleFetch, EncodeResponse, Room, Beyond, OnlyBox, Unexpired, AsItems;
    k, n := PageExactly(m, after, max);
  }

  lemma PageExactly(m: Mailbox, after: nat, max: nat) returns (k: nat, n: nat)
    requires Ascending(m)
    ensures k + n <= |m| && Page(m, after, max) == m[k..k + n] && n <= Min(max, MAX_FETCH)
    ensures forall i :: 0 <= i < |m| ==> (m[i].number > after <==> i >= k)
    ensures |EncodeResponse(Items(AsItems(m[k..k + n])))| <= MAX_FRAME
    ensures n < Min(max, MAX_FETCH) && k + n < |m| ==> |EncodeResponse(Items(AsItems(m[k..k + n + 1])))| > MAX_FRAME
  {
    hide EncodeResponse, Room, Beyond, Ascending, AsItems;
    k := BeyondIsSuffix(m, after);
    var limit := Min(max, MAX_FETCH);
    n := Room(m[k..], limit, 3);
    RoomIsExact(m[k..], limit, 3);
    assert m[k..][..n] == m[k..k + n];
    ItemsFit(m[k..k + n]);
    if n < limit && k + n < |m| {
      assert m[k..][..n + 1] == m[k..k + n + 1];
      ItemsFit(m[k..k + n + 1]);
    }
  }

  /** A send is refused as too large exactly above the limit. Otherwise it drops
      what expired; it answers with the number of an identical envelope held, is
      refused at capacity or at the last number, and appends the envelope, with
      the next number, in every other case. */
  lemma SendExactly(s: State, key: Key32, envelope: Bytes, now: nat, config: Config)
    ensures var (t, r) := Handle(s, Send(key, envelope), now, config);
            var kept := set e | e in Box(s, key) && Unexpired(e, now, config);
            if |envelope| > MAX_ENVELOPE then t == s && r == Error(TooLarge)
            else
              && OnlyBox(s, t, key)
              && if exists e :: e in kept && e.envelope == envelope then
                   && r.Accepted? && t.next == s.next && Thinned(Box(s, key), Box(t, key))
                   && (exists e :: e in kept && e.envelope == envelope && e.number == r.number)
                   && (forall e :: e in Box(t, key) <==> e in kept)
                 else if |Live(Box(s, key), now, config.ttl)| >= config.maxMailbox || s.next == U64_MAX then
                   && r == Error(Full) && t.next == s.next && Thinned(Box(s, key), Box(t, key))
                   && (forall e :: e in Box(t, key) <==> e in kept)
                 else
                   && r == Accepted(s.next) && t.next == s.next + 1
                   && |Box(t, key)| > 0 && Box(t, key)[|Box(t, key)| - 1] == Entry(s.next, now, envelope)
                   && Thinned(Box(s, key), Box(t, key)[..|Box(t, key)| - 1])
                   && (forall e :: e in Box(t, key) <==> e in kept || e == Entry(s.next, now, envelope))
  {
    var m := Live(Box(s, key), now, config.ttl);
    LiveExactly(Box(s, key), now, config);
    LiveThins(Box(s, key), now, config.ttl);
    FindsIt(m, envelope);
    var last := Entry(s.next, now, envelope);
    assert (m + [last])[..|m|] == m && (m + [last])[|m|] == last;
    assert forall e :: e in m + [last] <==> e in m || e == last;
    hide Live, Find, Thinned;
    if Find(m, envelope).Some? {
      var i :| 0 <= i < |m| && m[i].envelope == envelope && m[i].number == Find(m, envelope).value;
      assert m[i] in m;
    } else {
      assert forall e :: e in m ==> e.envelope != envelope;
    }
  }

  /** What a bundle request does: an owner's bundle is the one stored last. */
  lemma BundleExactly(s: State, owner: Key32, bundle: Bytes, other: Key32, now: nat, config: Config)
    ensures var (t, r) := Handle(s, PutBundle(owner, bundle), now, config);
            && t.mailboxes == s.mailboxes && t.next == s.next
            && (r == Done <==> |bundle| <= MAX_BUNDLE) && (r == Error(TooLarge) <==> |bundle| > MAX_BUNDLE)
            && Handle(t, GetBundle(other), now, config)
               == (t, if r == Done && other == owner then Bundle(bundle) else Handle(s, GetBundle(other), now, config).1)
    ensures Handle(s, GetBundle(other), now, config).0 == s
  {
  }

  // ── Over a whole run ──────────────────────────────────────────────────────

  /** The request asks for the removal of number `n` of that mailbox. */
  predicate Names(req: Request, key: Key32, n: U64) {
    req.Delete? && req.recipient == key && n in req.seqs
  }

  /** The request looks at that mailbox, and so sweeps it. */
  predicate Touches(req: Request, key: Key32) {
    match req
    case Send(recipient, envelope) => recipient == key && |envelope| <= MAX_ENVELOPE
    case Fetch(recipient, _) => recipient == key
    case FetchAfter(recipient, _, _) => recipient == key
    case _ => false
  }

  /** The call neither names the entry nor finds it expired. */
  predicate Spares(call: Call, key: Key32, e: Entry, config: Config) {
    !Names(call.req, key, e.number) && (Touches(call.req, key) ==> Unexpired(e, call.now, config))
  }

  /** One request keeps an entry exactly if it neither names it nor finds it
      expired. */
  lemma KeptExactly(s: State, call: Call, config: Config, key: Key32, e: Entry)
    requires e in Box(s, key)
    requires e.number < s.next
    ensures e in Box(Handle(s, call.req, call.now, config).0, key)
            <==> Spares(call, key, e, config)
  {
    match call.req
    case Delete(recipient, seqs) => DeleteExactly(s, recipient, seqs, call.now, config);
    case Send(recipient, envelope) => SendExactly(s, recipient, envelope, call.now, config);
    case Fetch(recipient, max) => FetchHandled(s, recipient, 0, max, call.now, config);
    case FetchAfter(recipient, after, max) => FetchHandled(s, recipient, after, max, call.now, config);
    case _ =>
  }

  /** No envelope is lost: over any run a stored entry is there later exactly if no
      request in between named it or found it expired. */
  lemma {:induction false} StoredUntilDeleted(states: seq<State>, calls: seq<Call>, config: Config, i: nat, j: nat, key: Key32, e: Entry)
    requires IsRun(states, calls, config) && i <= j < |states| && e in Box(states[i], key)
    ensures e in Box(states[j], key) <==> forall k :: i <= k < j ==> Spares(calls[k], key, e, config)
  {
    NumberedBelow(states, calls, config, i, key, e);
    if i < j {
      hide Handle, Box, Spares;
      StoredUntilDeleted(states, calls, config, i, j - 1, key, e);
      NextGrows(states, calls, config, i, j - 1);
      if e in Box(states[j - 1], key) {
        KeptExactly(states[j - 1], calls[j - 1], config, key, e);
      } else {
        GoneForGood(states, calls, config, j - 1, key, e);
      }
    }
  }

  lemma NumberedBelow(states: seq<State>, calls: seq<Call>, config: Config, i: nat, key: Key32, e: Entry)
    requires IsRun(states, calls, config) && i < |states| && e in Box(states[i], key)
    ensures e.number < states[i].next
  {
    RunIsSound(states, calls, config, i);
    assert GoodBox(states[i].mailboxes[key], states[i].next, config);
  }

  /** An entry that is gone does not come back: its number is spent. */
  lemma GoneForGood(states: seq<State>, calls: seq<Call>, config: Config, j: nat, key: Key32, e: Entry)
    requires IsRun(states, calls, config) && j < |calls| && e.number < states[j].next && e !in Box(states[j], key)
    ensures e !in Box(states[j + 1], key)
  {
    hide Handle, Box;
    if e in Box(states[j + 1], key) {
      HandleAddsNew(states[j], calls[j].req, calls[j].now, config, key, e);
    }
  }

  /** The last bundle the owner stored before `i`. */
  function LastBundle(calls: seq<Call>, i: nat, owner: Key32): Option<Bytes>
    requires i <= |calls|
  {
    if i == 0 then None
    else
      match calls[i - 1].req
      case PutBundle(o, bundle) =>
        if o == owner && |bundle| <= MAX_BUNDLE then Some(bundle) else LastBundle(calls, i - 1, owner)
      case _ => LastBundle(calls, i - 1, owner)
  }

  /** Over any run a bundle asked for is the one its owner stored last. */
  lemma {:induction false} BundleIsTheLast(states: seq<State>, calls: seq<Call>, config: Config, i: nat, owner: Key32, now: nat)
    requires IsRun(states, calls, config) && i < |states|
    ensures Handle(states[i], GetBundle(owner), now, config)
            == (states[i], match LastBundle(calls, i, owner) case Some(b) => Bundle(b) case None => NotFound)
  {
    if i > 0 {
      BundleIsTheLast(states, calls, config, i - 1, owner, now);
    }
  }
}

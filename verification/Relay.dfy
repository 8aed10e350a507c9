/** The relay's mailboxes: what each request does, as functions. */
module RelayModel {
  import opened Prelude
  import opened Bytes
  import opened RelayProtocol

  /** A stored envelope, with its sequence number and the time it arrived. */
  datatype Entry = Entry(number: U64, stored: nat, envelope: Bytes)

  type Mailbox = seq<Entry>

  datatype Config = Config(maxMailbox: nat, ttl: nat)

  datatype State = State(next: U64, mailboxes: map<Key32, Mailbox>, bundles: map<Key32, Bytes>)

  const INITIAL := State(1, map[], map[])

  predicate Supported(config: Config) {
    1 <= config.maxMailbox <= DEFAULT_MAX_MAILBOX
  }

  predicate IsLive(e: Entry, now: nat, ttl: nat) {
    (if now >= e.stored then now - e.stored else 0) < ttl
  }

  function Live(m: Mailbox, now: nat, ttl: nat): Mailbox {
    if m == [] then []
    else if IsLive(m[0], now, ttl) then [m[0]] + Live(m[1..], now, ttl)
    else Live(m[1..], now, ttl)
  }

  /** The entries numbered above `after`. */
  function Beyond(m: Mailbox, after: nat): Mailbox {
    if m == [] then [] else if m[0].number > after then [m[0]] + Beyond(m[1..], after) else Beyond(m[1..], after)
  }

  function Without(m: Mailbox, number: nat): Mailbox {
    if m == [] then [] else if m[0].number == number then Without(m[1..], number) else [m[0]] + Without(m[1..], number)
  }

  function WithoutAll(m: Mailbox, numbers: seq<U64>): Mailbox {
    if numbers == [] then m else Without(WithoutAll(m, numbers[..|numbers| - 1]), numbers[|numbers| - 1])
  }

  function Find(m: Mailbox, envelope: Bytes): Option<U64> {
    if m == [] then None else if m[0].envelope == envelope then Some(m[0].number) else Find(m[1..], envelope)
  }

  function ItemSize(e: Entry): nat {
    12 + |e.envelope|
  }

  function Size(m: Mailbox): nat {
    if m == [] then 0 else ItemSize(m[0]) + Size(m[1..])
  }

  /** How many entries fit, after `size` bytes, in one response frame. */
  function Room(m: Mailbox, max: nat, size: nat): (n: nat)
    ensures n <= |m| && n <= max
  {
    if m == [] || max == 0 || size + ItemSize(m[0]) > MAX_FRAME then 0
    else 1 + Room(m[1..], max - 1, size + ItemSize(m[0]))
  }

  function Min(a: nat, b: nat): nat {
    if a < b then a else b
  }

  /** The page a fetch returns: status and count take 3 bytes. */
  function Page(m: Mailbox, after: nat, max: nat): Mailbox {
    var beyond := Beyond(m, after);
    beyond[..Room(beyond, Min(max, MAX_FETCH), 3)]
  }

  function AsItems(m: Mailbox): (s: seq<Item>)
    ensures |s| == |m| && forall i :: 0 <= i < |m| ==> s[i] == Item(m[i].number, m[i].envelope)
  {
    seq(|m|, i requires 0 <= i < |m| => Item(m[i].number, m[i].envelope))
  }

  function Box(s: State, key: Key32): Mailbox {
    if key in s.mailboxes then s.mailboxes[key] else []
  }

  /** The state with the expired entries of one mailbox dropped. */
  function Swept(s: State, key: Key32, now: nat, ttl: nat): State {
    if key in s.mailboxes then s.(mailboxes := s.mailboxes[key := Live(s.mailboxes[key], now, ttl)]) else s
  }

  function HandleSend(s: State, recipient: Key32, envelope: Bytes, now: nat, config: Config): (State, Response) {
    if |envelope| > MAX_ENVELOPE then (s, Error(TooLarge))
    else
      var m := Live(Box(s, recipient), now, config.ttl);
      var swept := s.(mailboxes := s.mailboxes[recipient := m]);
      match Find(m, envelope)
      case Some(existing) => (swept, Accepted(existing))
      case None =>
        if |m| >= config.maxMailbox || s.next == U64_MAX then (swept, Error(Full))
        else (swept.(next := s.next + 1, mailboxes := s.mailboxes[recipient := m + [Entry(s.next, now, envelope)]]),
              Accepted(s.next))
  }

  function HandleFetch(s: State, recipient: Key32, after: nat, max: nat, now: nat, config: Config): (State, Response) {
    var swept := Swept(s, recipient, now, config.ttl);
    (swept, Items(AsItems(Page(Box(swept, recipient), after, max))))
  }

  function Handle(s: State, req: Request, now: nat, config: Config): (State, Response) {
    match req
    case PutBundle(owner, bundle) =>
      if |bundle| > MAX_BUNDLE then (s, Error(TooLarge)) else (s.(bundles := s.bundles[owner := bundle]), Done)
    case GetBundle(owner) => (s, if owner in s.bundles then Bundle(s.bundles[owner]) else NotFound)
    case Send(recipient, envelope) => HandleSend(s, recipient, envelope, now, config)
    case Fetch(recipient, max) => HandleFetch(s, recipient, 0, max, now, config)
    case FetchAfter(recipient, after, max) => HandleFetch(s, recipient, after, max, now, config)
    case Delete(recipient, seqs) =>
      if recipient !in s.mailboxes then (s, Done)
      else (s.(mailboxes := s.mailboxes[recipient := WithoutAll(s.mailboxes[recipient], seqs)]), Done)
  }

  // ── What every mailbox satisfies ──────────────────────────────────────────

  predicate Ascending(m: Mailbox) {
    forall i, j :: 0 <= i < j < |m| ==> m[i].number < m[j].number
  }

  predicate NoDuplicates(m: Mailbox) {
    forall i, j :: 0 <= i < j < |m| ==> m[i].envelope != m[j].envelope
  }

  predicate GoodBox(m: Mailbox, next: U64, config: Config) {
    && Ascending(m) && NoDuplicates(m) && |m| <= config.maxMailbox
    && forall i :: 0 <= i < |m| ==> 1 <= m[i].number < next && |m[i].envelope| <= MAX_ENVELOPE
  }

  predicate Holds(m: Mailbox, number: nat) {
    exists i :: 0 <= i < |m| && m[i].number == number
  }

  /** Every mailbox is in order, without repeats, within its capacity; a number
      is in one mailbox at most. */
  ghost predicate Sound(s: State, config: Config) {
    && s.next >= 1
    && (forall k :: k in s.mailboxes ==> GoodBox(s.mailboxes[k], s.next, config))
    && (forall k, l, n: nat :: k in s.mailboxes && l in s.mailboxes && Holds(s.mailboxes[k], n) && Holds(s.mailboxes[l], n) ==> k == l)
  }

  /** `t` keeps some entries of `m`, in order. */
  predicate Thinned(m: Mailbox, t: Mailbox) {
    if t == [] then true
    else if m == [] then false
    else if m[0] == t[0] then Thinned(m[1..], t[1..])
    else Thinned(m[1..], t)
  }

  lemma {:induction false} ThinnedHolds(m: Mailbox, t: Mailbox, e: Entry)
    requires Thinned(m, t) && e in t
    ensures e in m
  {
    if m[0] == t[0] {
      if e != t[0] {
        ThinnedHolds(m[1..], t[1..], e);
      }
    } else {
      ThinnedHolds(m[1..], t, e);
    }
  }

  lemma ConsIsGood(e: Entry, rest: Mailbox, next: U64, config: Config)
    requires GoodBox(rest, next, config) && |rest| < config.maxMailbox
    requires 1 <= e.number < next && |e.envelope| <= MAX_ENVELOPE
    requires forall f :: f in rest ==> f.number > e.number && f.envelope != e.envelope
    ensures GoodBox([e] + rest, next, config)
  {
  }

  lemma TailIsGood(m: Mailbox, next: U64, config: Config)
    requires m != [] && GoodBox(m, next, config)
    ensures GoodBox(m[1..], next, config)
    ensures forall f :: f in m[1..] ==> f.number > m[0].number && f.envelope != m[0].envelope
  {
  }

  lemma {:induction false} ThinnedIsGood(m: Mailbox, t: Mailbox, next: U64, config: Config)
    requires Thinned(m, t) && GoodBox(m, next, config)
    ensures GoodBox(t, next, config) && |t| <= |m|
  {
    if t != [] {
      TailIsGood(m, next, config);
      if m[0] == t[0] {
        var rest := t[1..];
        ThinnedIsGood(m[1..], rest, next, config);
        forall f | f in rest
          ensures f in m[1..]
        {
          ThinnedHolds(m[1..], rest, f);
        }
        ConsIsGood(t[0], rest, next, config);
        assert t == [t[0]] + rest;
      } else {
        ThinnedIsGood(m[1..], t, next, config);
      }
    }
  }

  lemma {:induction false} LiveThins(m: Mailbox, now: nat, ttl: nat)
    ensures Thinned(m, Live(m, now, ttl))
  {
    if m != [] {
      LiveThins(m[1..], now, ttl);
      if !IsLive(m[0], now, ttl) {
        SkipOne(m, Live(m[1..], now, ttl));
      }
    }
  }

  lemma {:induction false} SkipOne(m: Mailbox, t: Mailbox)
    requires m != [] && Thinned(m[1..], t)
    ensures Thinned(m, t)
  {
    if t != [] && m[0] == t[0] {
      DropOne(m[1..], t);
    }
  }

  lemma {:induction false} DropOne(m: Mailbox, t: Mailbox)
    requires t != [] && Thinned(m, t)
    ensures Thinned(m, t[1..])
  {
    if m[0] == t[0] {
      SkipOne(m, t[1..]);
    } else {
      DropOne(m[1..], t);
      SkipOne(m, t[1..]);
    }
  }

  lemma {:induction false} WithoutThins(m: Mailbox, number: nat)
    ensures Thinned(m, Without(m, number))
  {
    if m != [] {
      WithoutThins(m[1..], number);
      if m[0].number == number {
        SkipOne(m, Without(m[1..], number));
      }
    }
  }

  lemma {:induction false} FindsIt(m: Mailbox, envelope: Bytes)
    ensures Find(m, envelope).None? <==> forall i :: 0 <= i < |m| ==> m[i].envelope != envelope
    ensures Find(m, envelope).Some? ==> exists i :: 0 <= i < |m| && m[i].envelope == envelope && m[i].number == Find(m, envelope).value
  {
    if m != [] {
      FindsIt(m[1..], envelope);
      assert forall i :: 1 <= i < |m| ==> m[i] == m[1..][i - 1];
      if m[0].envelope != envelope && Find(m[1..], envelope).Some? {
        var i :| 0 <= i < |m[1..]| && m[1..][i].envelope == envelope && m[1..][i].number == Find(m[1..], envelope).value;
        assert m[i + 1].envelope == envelope;
      }
    }
  }

  /** Replacing a mailbox by some of its entries. */
  lemma ThinKeepsSound(s: State, key: Key32, t: Mailbox, config: Config)
    requires Sound(s, config) && Thinned(Box(s, key), t)
    ensures Sound(s.(mailboxes := s.mailboxes[key := t]), config)
  {
    var m := Box(s, key);
    assert GoodBox(m, s.next, config);
    ThinnedIsGood(m, t, s.next, config);
    forall e | e in t
      ensures e in m
    {
      ThinnedHolds(m, t, e);
    }
    hide Thinned, GoodBox, Box;
    var s' := s.(mailboxes := s.mailboxes[key := t]);
    forall k, l, n: nat | k in s'.mailboxes && l in s'.mailboxes && Holds(s'.mailboxes[k], n) && Holds(s'.mailboxes[l], n)
      ensures k == l
    {
      if k == key {
        HoldsSame(s, key, t, n);
      }
      if l == key {
        HoldsSame(s, key, t, n);
      }
    }
  }

  lemma HoldsSame(s: State, key: Key32, t: Mailbox, n: nat)
    requires Holds(t, n) && forall e :: e in t ==> e in Box(s, key)
    ensures key in s.mailboxes && Holds(s.mailboxes[key], n)
  {
    var i :| 0 <= i < |t| && t[i].number == n;
    assert t[i] in Box(s, key);
  }

  /** Adding an envelope the mailbox does not hold, under the next number. */
  lemma AppendKeepsSound(s: State, key: Key32, envelope: Bytes, now: nat, config: Config)
    requires Sound(s, config) && s.next < U64_MAX && key in s.mailboxes
    requires |s.mailboxes[key]| < config.maxMailbox && |envelope| <= MAX_ENVELOPE
    requires forall i :: 0 <= i < |s.mailboxes[key]| ==> s.mailboxes[key][i].envelope != envelope
    ensures Sound(s.(next := s.next + 1, mailboxes := s.mailboxes[key := s.mailboxes[key] + [Entry(s.next, now, envelope)]]), config)
  {
    var m := s.mailboxes[key];
    var t := m + [Entry(s.next, now, envelope)];
    var s' := s.(next := s.next + 1, mailboxes := s.mailboxes[key := t]);
    assert GoodBox(m, s.next, config);
    assert GoodBox(t, s'.next, config);
    forall k | k in s'.mailboxes
      ensures GoodBox(s'.mailboxes[k], s'.next, config)
    {
      assert k != key ==> GoodBox(s.mailboxes[k], s.next, config);
    }
    forall k, n: nat | k in s'.mailboxes && Holds(s'.mailboxes[k], n)
      ensures if n == s.next then k == key else k in s.mailboxes && Holds(s.mailboxes[k], n)
    {
      var i :| 0 <= i < |s'.mailboxes[k]| && s'.mailboxes[k][i].number == n;
      assert k in s.mailboxes ==> GoodBox(s.mailboxes[k], s.next, config);
      if k == key && i < |m| {
        assert m[i].number == n;
      }
    }
  }

  lemma {:induction false} WithoutAllThins(m: Mailbox, numbers: seq<U64>)
    ensures Thinned(m, WithoutAll(m, numbers))
  {
    if numbers == [] {
      Self(m);
    } else {
      var init := numbers[..|numbers| - 1];
      WithoutAllThins(m, init);
      WithoutThins(WithoutAll(m, init), numbers[|numbers| - 1]);
      ThinTwice(m, WithoutAll(m, init), WithoutAll(m, numbers));
    }
  }

  lemma {:induction false} Self(m: Mailbox)
    ensures Thinned(m, m)
  {
    if m != [] {
      Self(m[1..]);
    }
  }

  lemma {:induction false} ThinTwice(m: Mailbox, t: Mailbox, u: Mailbox)
    requires Thinned(m, t) && Thinned(t, u)
    ensures Thinned(m, u)
  {
    if u != [] {
      if m[0] == t[0] {
        if t[0] == u[0] {
          ThinTwice(m[1..], t[1..], u[1..]);
        } else {
          ThinTwice(m[1..], t[1..], u);
        }
      } else {
        ThinTwice(m[1..], t, u);
        SkipOne(m, u);
      }
    }
  }

  /** Every request keeps every mailbox in order, without repeats, within its
      capacity and with numbers of its own. */
  lemma HandleKeepsSound(s: State, req: Request, now: nat, config: Config)
    requires Sound(s, config)
    ensures Sound(Handle(s, req, now, config).0, config)
    ensures s.next <= Handle(s, req, now, config).0.next
  {
    match req
    case Send(recipient, envelope) =>
      if |envelope| <= MAX_ENVELOPE {
        var m := Live(Box(s, recipient), now, config.ttl);
        LiveThins(Box(s, recipient), now, config.ttl);
        ThinKeepsSound(s, recipient, m, config);
        var swept := s.(mailboxes := s.mailboxes[recipient := m]);
        FindsIt(m, envelope);
        hide Sound;
        if Find(m, envelope).None? && |m| < config.maxMailbox && s.next < U64_MAX {
          AppendKeepsSound(swept, recipient, envelope, now, config);
          var t := m + [Entry(s.next, now, envelope)];
          assert swept.mailboxes[recipient := t] == s.mailboxes[recipient := t];
        }
      }
    case Fetch(recipient, _) =>
      LiveThins(Box(s, recipient), now, config.ttl);
      ThinKeepsSound(s, recipient, Live(Box(s, recipient), now, config.ttl), config);
    case FetchAfter(recipient, _, _) =>
      LiveThins(Box(s, recipient), now, config.ttl);
      ThinKeepsSound(s, recipient, Live(Box(s, recipient), now, config.ttl), config);
    case Delete(recipient, seqs) =>
      WithoutAllThins(Box(s, recipient), seqs);
      ThinKeepsSound(s, recipient, WithoutAll(Box(s, recipient), seqs), config);
    case _ =>
  }

  // ── Pages ─────────────────────────────────────────────────────────────────

  lemma {:induction false} AllBeyond(m: Mailbox, after: nat)
    requires forall i :: 0 <= i < |m| ==> m[i].number > after
    ensures Beyond(m, after) == m
  {
    if m != [] {
      AllBeyond(m[1..], after);
      assert m == [m[0]] + m[1..];
    }
  }

  /** The entries beyond a cursor are the mailbox from some position on. */
  lemma {:induction false} BeyondIsSuffix(m: Mailbox, after: nat) returns (k: nat)
    requires Ascending(m)
    ensures k <= |m| && Beyond(m, after) == m[k..]
    ensures forall i :: 0 <= i < |m| ==> (m[i].number > after <==> i >= k)
  {
    if m == [] || m[0].number > after {
      k := 0;
      AllBeyond(m, after);
    } else {
      var tail := m[1..];
      assert forall i :: 0 <= i < |tail| ==> tail[i] == m[i + 1];
      k := BeyondIsSuffix(tail, after);
      assert tail[k..] == m[k + 1..];
      k := k + 1;
    }
  }

  /** A page fits its frame, and stops short of the asked-for count only where
      the next entry would not fit. */
  lemma {:induction false} RoomIsExact(m: Mailbox, max: nat, size: nat)
    requires size <= MAX_FRAME
    ensures var n := Room(m, max, size);
            && size + Size(m[..n]) <= MAX_FRAME
            && (n < |m| && n < max ==> size + Size(m[..n + 1]) > MAX_FRAME)
  {
    if m != [] && max > 0 && size + ItemSize(m[0]) <= MAX_FRAME {
      RoomIsExact(m[1..], max - 1, size + ItemSize(m[0]));
      var n := Room(m, max, size);
      assert m[..n][1..] == m[1..][..n - 1];
      if n < |m| {
        assert m[..n + 1][1..] == m[1..][..n];
      }
    } else if m != [] {
      assert m[..1][1..] == [];
    }
  }

  lemma {:induction false} SizeBound(m: Mailbox)
    requires forall i :: 0 <= i < |m| ==> |m[i].envelope| <= MAX_ENVELOPE
    ensures Size(m) <= |m| * (12 + MAX_ENVELOPE)
  {
    if m != [] {
      SizeBound(m[1..]);
    }
  }

  /** While more entries follow than a page holds, it holds as many as were asked
      for, or at least `MIN_PAGE`. */
  lemma PageIsFull(m: Mailbox, max: nat)
    requires forall i :: 0 <= i < |m| ==> |m[i].envelope| <= MAX_ENVELOPE
    ensures Room(m, max, 3) >= Min(Min(max, |m|), MIN_PAGE)
  {
    var n := Room(m, max, 3);
    RoomIsExact(m, max, 3);
    if n < |m| && n < max && n < MIN_PAGE {
      SizeBound(m[..n + 1]);
    }
  }

  lemma {:induction false} ItemsLength(m: Mailbox)
    ensures |EncodeItems(AsItems(m))| == Size(m)
  {
    if m != [] {
      ItemsLength(m[1..]);
      assert AsItems(m)[1..] == AsItems(m[1..]);
      hide ToBe;
    }
  }

  lemma FetchIs(s: State, recipient: Key32, after: nat, max: nat, now: nat, config: Config)
    ensures var m := Live(Box(s, recipient), now, config.ttl);
            var (t, response) := HandleFetch(s, recipient, after, max, now, config);
            Box(t, recipient) == m && response == Items(AsItems(Page(m, after, max)))
  {
    hide Page, AsItems;
  }

  /** A page is the ascending run right after the cursor: as many entries as were
      asked for, at most `MAX_FETCH`, that fit one frame, and never fewer than
      `MIN_PAGE` while more follow. */
  lemma PageIsRun(m: Mailbox, after: nat, max: nat) returns (k: nat, n: nat)
    requires Ascending(m) && forall i :: 0 <= i < |m| ==> |m[i].envelope| <= MAX_ENVELOPE
    ensures k + n <= |m| && Page(m, after, max) == m[k..k + n]
    ensures forall i :: 0 <= i < |m| ==> (m[i].number > after <==> i >= k)
    ensures |EncodeResponse(Items(AsItems(Page(m, after, max))))| <= MAX_FRAME
    ensures Min(Min(Min(max, MAX_FETCH), |m| - k), MIN_PAGE) <= n <= Min(max, MAX_FETCH)
  {
    hide ToBe, EncodeItems, EncodeResponse, Room, Beyond, Ascending;
    k := BeyondIsSuffix(m, after);
    n := Room(m[k..], Min(max, MAX_FETCH), 3);
    assert forall i :: 0 <= i < |m[k..]| ==> m[k..][i] == m[k + i];
    PageFits(m[k..], Min(max, MAX_FETCH));
    assert m[k..][..n] == m[k..k + n];
  }

  /** Every fetch answers with the page of the live entries. */
  lemma FetchReturnsRun(s: State, recipient: Key32, after: nat, max: nat, now: nat, config: Config) returns (k: nat, n: nat)
    requires Sound(s, config)
    ensures var m := Live(Box(s, recipient), now, config.ttl);
            var (t, response) := HandleFetch(s, recipient, after, max, now, config);
            && Box(t, recipient) == m && Ascending(m) && k + n <= |m|
            && (forall i :: 0 <= i < |m| ==> (m[i].number > after <==> i >= k))
            && response == Items(AsItems(m[k..k + n]))
            && |EncodeResponse(response)| <= MAX_FRAME
            && Min(Min(Min(max, MAX_FETCH), |m| - k), MIN_PAGE) <= n <= Min(max, MAX_FETCH)
  {
    LiveIsGood(s, recipient, now, config);
    hide Sound, EncodeResponse, Page, HandleFetch, Live, AsItems;
    FetchIs(s, recipient, after, max, now, config);
    k, n := PageIsRun(Live(Box(s, recipient), now, config.ttl), after, max);
  }

  lemma LiveIsGood(s: State, key: Key32, now: nat, config: Config)
    requires Sound(s, config)
    ensures GoodBox(Live(Box(s, key), now, config.ttl), s.next, config)
  {
    LiveThins(Box(s, key), now, config.ttl);
    assert GoodBox(Box(s, key), s.next, config);
    ThinnedIsGood(Box(s, key), Live(Box(s, key), now, config.ttl), s.next, config);
  }

  lemma PageFits(m: Mailbox, max: nat)
    requires forall i :: 0 <= i < |m| ==> |m[i].envelope| <= MAX_ENVELOPE
    ensures var n := Room(m, max, 3);
            && |EncodeResponse(Items(AsItems(m[..n])))| <= MAX_FRAME
            && n >= Min(Min(max, |m|), MIN_PAGE)
  {
    hide ToBe, EncodeItems;
    var n := Room(m, max, 3);
    RoomIsExact(m, max, 3);
    PageIsFull(m, max);
    ItemsLength(m[..n]);
  }

  // ── Numbers over a whole run ──────────────────────────────────────────────

  datatype Call = Call(req: Request, now: nat)

  ghost predicate IsRun(states: seq<State>, calls: seq<Call>, config: Config) {
    && |states| == |calls| + 1 && states[0] == INITIAL
    && forall i :: 0 <= i < |calls| ==> states[i + 1] == Handle(states[i], calls[i].req, calls[i].now, config).0
  }

  lemma {:induction false} RunIsSound(states: seq<State>, calls: seq<Call>, config: Config, i: nat)
    requires IsRun(states, calls, config) && i < |states|
    ensures Sound(states[i], config)
  {
    if i > 0 {
      RunIsSound(states, calls, config, i - 1);
      HandleKeepsSound(states[i - 1], calls[i - 1].req, calls[i - 1].now, config);
    }
  }

  lemma {:induction false} NextGrows(states: seq<State>, calls: seq<Call>, config: Config, i: nat, j: nat)
    requires IsRun(states, calls, config) && i <= j < |states|
    ensures states[i].next <= states[j].next
  {
    if i < j {
      NextGrows(states, calls, config, i, j - 1);
      RunIsSound(states, calls, config, j - 1);
      HandleKeepsSound(states[j - 1], calls[j - 1].req, calls[j - 1].now, config);
    }
  }

  /** Whatever mailbox holds number `n` holds it for `key` and `envelope`. */
  ghost predicate BoundTo(s: State, n: U64, key: Key32, envelope: Bytes) {
    forall k, i :: k in s.mailboxes && 0 <= i < |s.mailboxes[k]| && s.mailboxes[k][i].number == n ==>
      k == key && s.mailboxes[k][i].envelope == envelope
  }

  /** Whatever a mailbox holds later, it held before, or got a later number. */
  lemma HandleAddsNew(s: State, req: Request, now: nat, config: Config, key: Key32, e: Entry)
    requires e in Box(Handle(s, req, now, config).0, key)
    ensures e in Box(s, key) || e.number >= s.next
  {
    match req
    case Send(recipient, _) =>
      var m := Live(Box(s, recipient), now, config.ttl);
      LiveThins(Box(s, recipient), now, config.ttl);
      if recipient == key && e in m {
        ThinnedHolds(Box(s, key), m, e);
      }
    case Fetch(recipient, _) =>
      LiveThins(Box(s, recipient), now, config.ttl);
      if recipient == key {
        ThinnedHolds(Box(s, key), Live(Box(s, key), now, config.ttl), e);
      }
    case FetchAfter(recipient, _, _) =>
      LiveThins(Box(s, recipient), now, config.ttl);
      if recipient == key {
        ThinnedHolds(Box(s, key), Live(Box(s, key), now, config.ttl), e);
      }
    case Delete(recipient, seqs) =>
      WithoutAllThins(Box(s, recipient), seqs);
      if recipient == key && key in s.mailboxes {
        ThinnedHolds(Box(s, key), WithoutAll(Box(s, key), seqs), e);
      }
    case _ =>
  }

  lemma {:induction false} OldOrNewer(states: seq<State>, calls: seq<Call>, config: Config, i: nat, j: nat, key: Key32, e: Entry)
    requires IsRun(states, calls, config) && i <= j < |states| && e in Box(states[j], key)
    ensures e in Box(states[i], key) || e.number >= states[i].next
  {
    if i < j {
      hide Handle, Box;
      HandleAddsNew(states[j - 1], calls[j - 1].req, calls[j - 1].now, config, key, e);
      NextGrows(states, calls, config, i, j - 1);
      if e in Box(states[j - 1], key) {
        OldOrNewer(states, calls, config, i, j - 1, key, e);
      }
    }
  }

  lemma ThinKeepsBound(s: State, n: U64, key: Key32, envelope: Bytes, k: Key32, t: Mailbox)
    requires BoundTo(s, n, key, envelope) && Thinned(Box(s, k), t)
    ensures BoundTo(s.(mailboxes := s.mailboxes[k := t]), n, key, envelope)
  {
    forall i | 0 <= i < |t| && t[i].number == n
      ensures k == key && t[i].envelope == envelope
    {
      ThinnedHolds(Box(s, k), t, t[i]);
      var m := Box(s, k);
      var j :| 0 <= j < |m| && m[j] == t[i];
    }
  }

  lemma AppendKeepsBound(s: State, n: U64, key: Key32, envelope: Bytes, k: Key32, e: Entry)
    requires BoundTo(s, n, key, envelope) && e.number != n && k in s.mailboxes
    ensures BoundTo(s.(mailboxes := s.mailboxes[k := s.mailboxes[k] + [e]]), n, key, envelope)
  {
    assert forall i :: 0 <= i < |s.mailboxes[k]| ==> (s.mailboxes[k] + [e])[i] == s.mailboxes[k][i];
  }

  /** A number below `next` keeps its meaning through every request. */
  lemma HandleKeepsBound(s: State, req: Request, now: nat, config: Config, n: U64, key: Key32, envelope: Bytes)
    requires BoundTo(s, n, key, envelope) && n < s.next
    ensures BoundTo(Handle(s, req, now, config).0, n, key, envelope)
  {
    match req
    case Send(recipient, e) =>
      var m := Live(Box(s, recipient), now, config.ttl);
      LiveThins(Box(s, recipient), now, config.ttl);
      ThinKeepsBound(s, n, key, envelope, recipient, m);
      var swept := s.(mailboxes := s.mailboxes[recipient := m]);
      AppendKeepsBound(swept, n, key, envelope, recipient, Entry(s.next, now, e));
      var t := m + [Entry(s.next, now, e)];
      assert swept.mailboxes[recipient := t] == s.mailboxes[recipient := t];
    case Fetch(recipient, _) =>
      LiveThins(Box(s, recipient), now, config.ttl);
      ThinKeepsBound(s, n, key, envelope, recipient, Live(Box(s, recipient), now, config.ttl));
    case FetchAfter(recipient, _, _) =>
      LiveThins(Box(s, recipient), now, config.ttl);
      ThinKeepsBound(s, n, key, envelope, recipient, Live(Box(s, recipient), now, config.ttl));
    case Delete(recipient, seqs) =>
      WithoutAllThins(Box(s, recipient), seqs);
      ThinKeepsBound(s, n, key, envelope, recipient, WithoutAll(Box(s, recipient), seqs));
    case _ =>
  }

  lemma {:induction false} BoundStays(states: seq<State>, calls: seq<Call>, config: Config, i: nat, j: nat,
                                      n: U64, key: Key32, envelope: Bytes)
    requires IsRun(states, calls, config) && i <= j < |states|
    requires BoundTo(states[i], n, key, envelope) && n < states[i].next
    ensures BoundTo(states[j], n, key, envelope)
  {
    if i < j {
      BoundStays(states, calls, config, i, j - 1, n, key, envelope);
      NextGrows(states, calls, config, i, j - 1);
      hide Handle, BoundTo;
      HandleKeepsBound(states[j - 1], calls[j - 1].req, calls[j - 1].now, config, n, key, envelope);
    }
  }

  /** An accepted SEND leaves its number bound to its recipient and envelope. */
  lemma SendBinds(s: State, recipient: Key32, envelope: Bytes, now: nat, config: Config)
    requires Sound(s, config) && HandleSend(s, recipient, envelope, now, config).1.Accepted?
    ensures var (t, r) := HandleSend(s, recipient, envelope, now, config);
            && BoundTo(t, r.number, recipient, envelope) && r.number < t.next && Holds(Box(t, recipient), r.number)
  {
    var m := Live(Box(s, recipient), now, config.ttl);
    FindsIt(m, envelope);
    HandleKeepsSound(s, Send(recipient, envelope), now, config);
    var (t, r) := HandleSend(s, recipient, envelope, now, config);
    var box := t.mailboxes[recipient];
    assert GoodBox(box, t.next, config);
    assert exists i :: 0 <= i < |box| && box[i].number == r.number && box[i].envelope == envelope by {
      if Find(m, envelope).None? {
        assert box[|m|].number == r.number;
      }
    }
    var i :| 0 <= i < |box| && box[i].number == r.number && box[i].envelope == envelope;
    assert Holds(box, r.number);
    forall k, j | k in t.mailboxes && 0 <= j < |t.mailboxes[k]| && t.mailboxes[k][j].number == r.number
      ensures k == recipient && t.mailboxes[k][j].envelope == envelope
    {
      assert Holds(t.mailboxes[k], r.number);
    }
  }

  /** Sequence numbers are never reused: over any run, two accepted SENDs that
      report one number were of the same envelope to the same recipient. */
  lemma NumbersNeverReused(states: seq<State>, calls: seq<Call>, config: Config, i: nat, j: nat)
    requires IsRun(states, calls, config) && i < j < |calls|
    requires calls[i].req.Send? && calls[j].req.Send?
    requires var a := HandleSend(states[i], calls[i].req.recipient, calls[i].req.envelope, calls[i].now, config).1;
             var b := HandleSend(states[j], calls[j].req.recipient, calls[j].req.envelope, calls[j].now, config).1;
             a.Accepted? && b == a
    ensures calls[i].req == calls[j].req
  {
    var (key, envelope) := (calls[i].req.recipient, calls[i].req.envelope);
    var n := HandleSend(states[i], key, envelope, calls[i].now, config).1.number;
    RunIsSound(states, calls, config, i);
    RunIsSound(states, calls, config, j);
    hide Sound;
    SendBinds(states[i], key, envelope, calls[i].now, config);
    assert states[i + 1] == HandleSend(states[i], key, envelope, calls[i].now, config).0;
    assert states[j + 1] == HandleSend(states[j], calls[j].req.recipient, calls[j].req.envelope, calls[j].now, config).0;
    BoundStays(states, calls, config, i + 1, j + 1, n, key, envelope);
    SendBinds(states[j], calls[j].req.recipient, calls[j].req.envelope, calls[j].now, config);
    SameBinding(states[j + 1], n, key, envelope, calls[j].req.recipient, calls[j].req.envelope);
  }

  lemma SameBinding(s: State, n: U64, key: Key32, envelope: Bytes, other: Key32, e: Bytes)
    requires BoundTo(s, n, key, envelope) && BoundTo(s, n, other, e) && Holds(Box(s, other), n)
    ensures key == other && envelope == e
  {
    var m := Box(s, other);
    var i :| 0 <= i < |m| && m[i].number == n;
    assert s.mailboxes[other][i].number == n;
  }

  /** And they never wrap: at the last number the relay stores nothing more. */
  lemma NumbersNeverWrap(s: State, recipient: Key32, envelope: Bytes, now: nat, config: Config)
    ensures var (t, r) := HandleSend(s, recipient, envelope, now, config);
            && (t.next == s.next || (t.next == s.next + 1 && r == Accepted(s.next)))
            && (s.next == U64_MAX ==> t.next == U64_MAX && forall k :: k in t.mailboxes ==> |Box(t, k)| <= |Box(s, k)|)
  {
    LiveThins(Box(s, recipient), now, config.ttl);
    ThinnedIsShorter(Box(s, recipient), Live(Box(s, recipient), now, config.ttl));
  }

  lemma {:induction false} ThinnedIsShorter(m: Mailbox, t: Mailbox)
    requires Thinned(m, t)
    ensures |t| <= |m|
  {
    if t != [] {
      if m[0] == t[0] {
        ThinnedIsShorter(m[1..], t[1..]);
      } else {
        ThinnedIsShorter(m[1..], t);
      }
    }
  }
}

/** The relay as it runs: `State` behind one lock, `handle` updating it in place. */
module RelayServer {
  import opened Prelude
  import opened Bytes
  import opened RelayProtocol
  import opened RelayModel

  class Relay {
    const config: Config
    var next: U64
    var mailboxes: map<Key32, Mailbox>
    var bundles: map<Key32, Bytes>

    function Current(): State
      reads this
    {
      State(next, mailboxes, bundles)
    }

    ghost predicate Valid()
      reads this
    {
      Supported(config) && Sound(Current(), config)
    }

    /** Refuses any capacity a reader's scan could not cover. */
    constructor (config: Config)
      requires Supported(config)
      ensures Valid() && this.config == config && Current() == INITIAL
    {
      this.config, next, mailboxes, bundles := config, 1, map[], map[];
    }

    /** Drops the expired entries of a mailbox. */
    method Retain(m: Mailbox, now: nat) returns (out: Mailbox)
      ensures out == Live(m, now, config.ttl)
    {
      out := [];
      for i := 0 to |m|
        invariant Live(m, now, config.ttl) == out + Live(m[i..], now, config.ttl)
      {
        assert m[i..][1..] == m[i + 1..];
        if IsLive(m[i], now, config.ttl) {
          out := out + [m[i]];
        }
      }
      assert m[|m|..] == [];
    }

    /** The entries numbered above `after`. */
    method Range(m: Mailbox, after: U64) returns (out: Mailbox)
      ensures out == Beyond(m, after)
    {
      out := [];
      for i := 0 to |m|
        invariant Beyond(m, after) == out + Beyond(m[i..], after)
      {
        assert m[i..][1..] == m[i + 1..];
        if m[i].number > after {
          out := out + [m[i]];
        }
      }
      assert m[|m|..] == [];
    }

    /** As many entries from the front as were asked for and fit one response. */
    method TakePage(m: Mailbox, max: nat) returns (items: seq<Item>)
      ensures items == AsItems(m[..Room(m, max, 3)])
    {
      var size: nat := 3;
      items := [];
      for i := 0 to |m|
        invariant i <= max && items == AsItems(m[..i])
        invariant Room(m, max, 3) == i + Room(m[i..], max - i, size)
      {
        size := size + ItemSize(m[i]);
        if i == max || size > MAX_FRAME {
          return;
        }
        assert m[i..][1..] == m[i + 1..];
        items := items + [Item(m[i].number, m[i].envelope)];
      }
    }

    method FetchAfterCursor(recipient: Key32, after: U64, max: U16, now: nat) returns (r: Response)
      modifies this`mailboxes
      ensures (Current(), r) == HandleFetch(old(Current()), recipient, after, max, now, config)
    {
      if recipient !in mailboxes {
        assert Page([], after, max) == [];
        return Items([]);
      }
      var live := Retain(mailboxes[recipient], now);
      mailboxes := mailboxes[recipient := live];
      var beyond := Range(live, after);
      var items := TakePage(beyond, Min(max, MAX_FETCH));
      return Items(items);
    }

    /** The number of an identical envelope still stored. */
    method FindStored(m: Mailbox, envelope: Bytes) returns (r: Option<U64>)
      ensures r == Find(m, envelope)
    {
      for i := 0 to |m|
        invariant Find(m, envelope) == Find(m[i..], envelope)
      {
        if m[i].envelope == envelope {
          return Some(m[i].number);
        }
        assert m[i..][1..] == m[i + 1..];
      }
      assert m[|m|..] == [];
      return None;
    }

    method Store(recipient: Key32, envelope: Bytes, now: nat) returns (r: Response)
      modifies this
      ensures (Current(), r) == HandleSend(old(Current()), recipient, envelope, now, config)
    {
      hide Live, Find;
      if |envelope| > MAX_ENVELOPE {
        return Error(TooLarge);
      }
      var before := mailboxes;
      var m := Retain(if recipient in before then before[recipient] else [], now);
      mailboxes := before[recipient := m];
      var existing := FindStored(m, envelope);
      if existing.Some? {
        return Accepted(existing.value);
      }
      if |m| >= config.maxMailbox || next == U64_MAX {
        return Error(Full);
      }
      var number := next;
      mailboxes := before[recipient := m + [Entry(number, now, envelope)]];
      next := number + 1;
      return Accepted(number);
    }

    method Remove(recipient: Key32, seqs: seq<U64>)
      modifies this`mailboxes
      ensures Current() == Handle(old(Current()), Delete(recipient, seqs), 0, config).0
    {
      if recipient !in mailboxes {
        return;
      }
      var start := mailboxes;
      for n := 0 to |seqs|
        invariant mailboxes == start[recipient := WithoutAll(start[recipient], seqs[..n])]
      {
        assert seqs[..n + 1][..n] == seqs[..n];
        mailboxes := mailboxes[recipient := Without(mailboxes[recipient], seqs[n])];
      }
      assert seqs[..|seqs|] == seqs;
    }

    method HandleRequest(req: Request, now: nat) returns (r: Response)
      requires Valid()
      modifies this
      ensures Valid() && (Current(), r) == Handle(old(Current()), req, now, config)
    {
      HandleKeepsSound(Current(), req, now, config);
      match req
      case PutBundle(owner, bundle) =>
        if |bundle| > MAX_BUNDLE {
          return Error(TooLarge);
        }
        bundles := bundles[owner := bundle];
        return Done;
      case GetBundle(owner) => return if owner in bundles then Bundle(bundles[owner]) else NotFound;
      case Send(recipient, envelope) => r := Store(recipient, envelope, now);
      case Fetch(recipient, max) => r := FetchAfterCursor(recipient, 0, max, now);
      case FetchAfter(recipient, after, max) => r := FetchAfterCursor(recipient, after, max, now);
      case Delete(recipient, seqs) =>
        Remove(recipient, seqs);
        return Done;
    }
  }
}

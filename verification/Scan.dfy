/** The two passes of a sync round over a mailbox. */
module MailboxScan {
  import opened Prelude
  import opened Bytes
  import opened RelayProtocol
  import opened RelayModel
  import opened WireCodec
  import opened StoreRecords
  import opened Storage
  import opened MessengerModel
  import opened MessengerRecovery
  import opened NetworkLayer
  import opened NetworkRules

  const MAX_SCAN_ENVELOPES: nat := DEFAULT_MAX_MAILBOX
  const MAX_SCAN_PAGES: nat := (MAX_SCAN_ENVELOPES + MIN_PAGE - 1) / MIN_PAGE

  datatype Pass = Handshakes | Messages

  /** `Reached` gives the last number the pass reached and the numbers it had the
      relay delete. */
  datatype Outcome = Reached(end: Option<U64>, deleted: seq<U64>) | BadRelay | Aborted(item: Item)

  /** What was decided about each envelope processed, by its number. */
  type Processing = map<U64, Decision>

  predicate IsHandshake(i: Item) {
    var e := DecodeEnvelope(i.envelope);
    e.Some? && e.value.HandshakeEnvelope?
  }

  predicate Selected(pass: Pass, i: Item) {
    IsHandshake(i) <==> pass.Handshakes?
  }

  /** What does not decode is dropped. */
  function FateOf(i: Item, process: Processing): Fate {
    if DecodeEnvelope(i.envelope).None? then Discard
    else if i.number in process then process[i.number].fate else Keep
  }

  /** The selected items of a log that are fated to be deleted, in order. */
  function Doomed(log: seq<Item>, pass: Pass, process: Processing): seq<U64> {
    if log == [] then []
    else
      var (rest, i) := (Doomed(log[..|log| - 1], pass, process), log[|log| - 1]);
      if Selected(pass, i) && FateOf(i, process) == Discard then rest + [i.number] else rest
  }

  predicate Rising(log: seq<Item>) {
    forall i, j :: 0 <= i < j < |log| ==> log[i].number < log[j].number
  }

  function Last(log: seq<Item>): nat {
    if log == [] then 0 else log[|log| - 1].number
  }

  /** What one pass has consumed, in relay order and within its limits, and what
      it decided to delete of it. */
  predicate Progress(log: seq<Item>, delete: seq<U64>, pass: Pass, until: U64, process: Processing) {
    && Rising(log) && |log| <= MAX_SCAN_ENVELOPES
    && (forall i :: 0 <= i < |log| ==> 1 <= log[i].number <= until)
    && (forall i :: 0 <= i < |log| && Selected(pass, log[i]) ==> FateOf(log[i], process) != Abort)
    && delete == Doomed(log, pass, process)
  }

  datatype Verdict = More | Stop | Disordered | Aborting(item: Item)

  /** Consuming one more item. */
  lemma ProgressStep(log: seq<Item>, delete: seq<U64>, pass: Pass, until: U64, process: Processing, i: Item)
    requires Progress(log, delete, pass, until, process) && |log| < MAX_SCAN_ENVELOPES
    requires Last(log) < i.number <= until && (Selected(pass, i) ==> FateOf(i, process) != Abort)
    ensures Progress(log + [i], if Selected(pass, i) && FateOf(i, process) == Discard then delete + [i.number] else delete,
                     pass, until, process)
    ensures Last(log + [i]) == i.number
  {
    assert (log + [i])[..|log|] == log;
    hide Selected, FateOf;
  }

  /** Where the item at `c` stands: after everything consumed before it. */
  function Before(items: seq<Item>, log: seq<Item>, c: nat): nat
    requires c <= |items|
  {
    if c == 0 then Last(log) else items[c - 1].number
  }

  /** A decision about an item not consumed yet changes nothing before it. */
  lemma DecidedLater(log: seq<Item>, delete: seq<U64>, pass: Pass, until: U64, process: Processing, number: U64, d: Decision)
    requires Progress(log, delete, pass, until, process) && number > Last(log)
    ensures Progress(log, delete, pass, until, process[number := d])
  {
    hide Selected;
    DoomedLater(log, pass, process, number, d);
    assert forall i :: 0 <= i < |log| ==> log[i].number <= Last(log);
  }

  lemma {:induction false} DoomedLater(log: seq<Item>, pass: Pass, process: Processing, number: U64, d: Decision)
    requires Rising(log) && number > Last(log)
    ensures Doomed(log, pass, process[number := d]) == Doomed(log, pass, process)
  {
    if log != [] {
      var init := log[..|log| - 1];
      assert init != [] ==> Last(init) < log[|log| - 1].number;
      DoomedLater(init, pass, process, number, d);
    }
  }

  /** What a pass works with: the device, how it reads bytes, the minute of the
      clock, and how many versions the store had when the pass began. */
  datatype View = View(device: Device, digest: MessageId -> Key32, reading: Reading, minute: Minute, since: nat)

  /** Every decision about a consumed envelope to drop it is a deserved one. */
  ghost predicate Earned(view: View, versions: seq<Contents>, log: seq<Item>, process: Processing) {
    forall i :: 0 <= i < |log| ==> ItemEarned(view, versions, log[i], process)
  }

  function ViewOf(net: NetworkMessenger, minute: Minute, since: nat): View {
    View(net.core.device, net.digest, net.reading, minute, since)
  }

  ghost predicate ExplainedAt(view: View, versions: seq<Contents>, e: Envelope, d: Decision, before: seq<Contents>,
                              now: seq<Contents>, was: map<nat, Unresolved>)
  {
    && view.since <= |before| && before <= now <= versions
    && LeftOnRelay(view.device, view.digest, view.reading, before, now, was, view.minute, e, d)
  }

  /** The decision says the truth: about what was dropped, about what stays on the
      relay, and about what ended the round. */
  ghost predicate Warranted(view: View, versions: seq<Contents>, e: Envelope, d: Decision) {
    && Deserved(view.device, view.digest, view.reading, versions, view.since, view.minute, e, d)
    && exists before: seq<Contents>, now: seq<Contents>, was: map<nat, Unresolved> ::
         ExplainedAt(view, versions, e, d, before, now, was)
  }

  /** The envelope is one the pass processes, and it ended the round. */
  ghost predicate Stuck(view: View, versions: seq<Contents>, pass: Pass, item: Item) {
    && Selected(pass, item) && DecodeEnvelope(item.envelope).Some?
    && exists d: Decision :: d.fate.Abort? && Warranted(view, versions, DecodeEnvelope(item.envelope).value, d)
  }

  ghost predicate ItemEarned(view: View, versions: seq<Contents>, i: Item, process: Processing) {
    match DecodeEnvelope(i.envelope)
    case None => true
    case Some(e) => i.number in process ==> Warranted(view, versions, e, process[i.number])
  }

  lemma WarrantedLater(view: View, versions: seq<Contents>, later: seq<Contents>, e: Envelope, d: Decision)
    requires versions <= later && Warranted(view, versions, e, d)
    ensures Warranted(view, later, e, d)
  {
    hide Deserved, LeftOnRelay;
    DeservedLater(view.device, view.digest, view.reading, versions, later, view.since, view.since, view.minute, e, d);
    var before: seq<Contents>, now: seq<Contents>, was: map<nat, Unresolved> :|
      ExplainedAt(view, versions, e, d, before, now, was);
    assert ExplainedAt(view, later, e, d, before, now, was);
  }

  /** What processing an envelope decided, seen from the pass. */
  lemma IsWarranted(view: View, before: seq<Contents>, versions: seq<Contents>, was: map<nat, Unresolved>, e: Envelope, d: Decision)
    requires view.since <= |before| && before <= versions
    requires Deserved(view.device, view.digest, view.reading, versions, |before|, view.minute, e, d)
    requires LeftOnRelay(view.device, view.digest, view.reading, before, versions, was, view.minute, e, d)
    ensures Warranted(view, versions, e, d)
  {
    hide Deserved, LeftOnRelay;
    DeservedLater(view.device, view.digest, view.reading, versions, versions, |before|, view.since, view.minute, e, d);
    assert ExplainedAt(view, versions, e, d, before, versions, was);
  }

  lemma EarnedLater(view: View, versions: seq<Contents>, later: seq<Contents>, log: seq<Item>, process: Processing)
    requires versions <= later && Earned(view, versions, log, process)
    ensures Earned(view, later, log, process)
  {
    hide Warranted;
    forall i | 0 <= i < |log|
      ensures ItemEarned(view, later, log[i], process)
    {
      assert ItemEarned(view, versions, log[i], process);
      var e := DecodeEnvelope(log[i].envelope);
      if e.Some? && log[i].number in process {
        WarrantedLater(view, versions, later, e.value, process[log[i].number]);
      }
    }
  }

  lemma EarnedNext(view: View, versions: seq<Contents>, log: seq<Item>, process: Processing, item: Item, d: Decision)
    requires Rising(log) && item.number > Last(log) && Earned(view, versions, log, process)
    requires DecodeEnvelope(item.envelope).Some? ==>
               Warranted(view, versions, DecodeEnvelope(item.envelope).value, d)
    ensures Earned(view, versions, log + [item], process[item.number := d])
  {
    hide Warranted;
    forall i | 0 <= i < |log| + 1
      ensures ItemEarned(view, versions, (log + [item])[i], process[item.number := d])
    {
      if i < |log| {
        assert ItemEarned(view, versions, log[i], process);
        assert log[i].number <= Last(log);
      }
    }
  }

  lemma EarnedPast(view: View, versions: seq<Contents>, log: seq<Item>, process: Processing, item: Item)
    requires Earned(view, versions, log, process) && item.number !in process
    ensures Earned(view, versions, log + [item], process)
  {
    hide Warranted;
    forall i | 0 <= i < |log| + 1
      ensures ItemEarned(view, versions, (log + [item])[i], process)
    {
      assert i < |log| ==> ItemEarned(view, versions, log[i], process);
    }
  }

  /** Nothing is decided beyond the log. */
  predicate DecidedUpTo(log: seq<Item>, process: Processing) {
    forall n :: n in process ==> n <= Last(log)
  }

  /** Every selected envelope that decodes was processed. */
  predicate AllDecided(log: seq<Item>, pass: Pass, process: Processing) {
    forall i :: 0 <= i < |log| && Selected(pass, log[i]) && DecodeEnvelope(log[i].envelope).Some? ==> log[i].number in process
  }

  /** What a pass has done so far. */
  ghost predicate Driven(view: View, versions: seq<Contents>, log: seq<Item>, delete: seq<U64>, pass: Pass,
                         until: U64, process: Processing)
  {
    && Progress(log, delete, pass, until, process) && DecidedUpTo(log, process)
    && Earned(view, versions, log, process) && AllDecided(log, pass, process)
  }

  lemma DrivenLater(view: View, versions: seq<Contents>, later: seq<Contents>, log: seq<Item>,
                    delete: seq<U64>, pass: Pass, until: U64, process: Processing)
    requires versions <= later && Driven(view, versions, log, delete, pass, until, process)
    ensures Driven(view, later, log, delete, pass, until, process)
  {
    hide Progress, Earned;
    EarnedLater(view, versions, later, log, process);
  }

  /** An item that was processed is consumed with its decision. */
  lemma DriveOne(view: View, versions: seq<Contents>, log: seq<Item>, delete: seq<U64>, pass: Pass,
                 until: U64, process: Processing, item: Item, d: Decision)
    requires Driven(view, versions, log, delete, pass, until, process) && |log| < MAX_SCAN_ENVELOPES
    requires Last(log) < item.number <= until && Selected(pass, item) && d.fate != Abort
    requires DecodeEnvelope(item.envelope).Some? && Warranted(view, versions, DecodeEnvelope(item.envelope).value, d)
    ensures Driven(view, versions, log + [item], if d.fate.Discard? then delete + [item.number] else delete, pass, until,
                   process[item.number := d])
    ensures Last(log + [item]) == item.number
  {
    hide Warranted, Selected, Earned;
    DecidedLater(log, delete, pass, until, process, item.number, d);
    EarnedNext(view, versions, log, process, item, d);
    ProgressStep(log, delete, pass, until, process[item.number := d], item);
  }

  /** Any other item is consumed as it is: dropped if it does not decode. */
  lemma PassOne(view: View, versions: seq<Contents>, log: seq<Item>, delete: seq<U64>, pass: Pass,
                until: U64, process: Processing, item: Item)
    requires Driven(view, versions, log, delete, pass, until, process) && |log| < MAX_SCAN_ENVELOPES
    requires Last(log) < item.number <= until && (Selected(pass, item) ==> DecodeEnvelope(item.envelope).None?)
    ensures Driven(view, versions, log + [item], if Selected(pass, item) then delete + [item.number] else delete, pass, until, process)
    ensures Last(log + [item]) == item.number
  {
    hide Warranted, Selected, Earned;
    EarnedPast(view, versions, log, process, item);
    ProgressStep(log, delete, pass, until, process, item);
  }

  /** One page: consumes its first `c` items, in order, until something ends the
      pass; each selected envelope is processed as it is met. */
  method ScanPage(net: NetworkMessenger, store: EncryptedStore, minute: Minute, items: seq<Item>, pass: Pass, until: U64,
                  process: Processing, log: seq<Item>, delete: seq<U64>, ghost view: View)
    returns (c: nat, delete': seq<U64>, verdict: Verdict, process': Processing)
    requires store.Valid() && |log| < MAX_SCAN_ENVELOPES && view == ViewOf(net, minute, view.since) && view.since <= |store.versions|
    requires Driven(view, store.versions, log, delete, pass, until, process)
    modifies net.core, store
    ensures store.Valid() && old(store.versions) <= store.versions
    ensures c <= |items|
    ensures !verdict.Aborting? ==>
              Driven(view, store.versions, log + items[..c], delete', pass, until, process')
    ensures Last(log + items[..c]) == Before(items, log, c)
    ensures verdict.More? ==> c == |items| && |log| + c < MAX_SCAN_ENVELOPES && (c > 0 ==> items[c - 1].number != until)
    ensures verdict.Stop? ==>
              || |log| + c == MAX_SCAN_ENVELOPES
              || (c > 0 && items[c - 1].number == until)
              || (c < |items| && items[c].number > until)
    ensures verdict.Disordered? ==> c < |items| && items[c].number <= Before(items, log, c)
    ensures verdict.Aborting? ==> c < |items| && items[c] == verdict.item && Stuck(view, store.versions, pass, verdict.item)
  {
    hide Driven, Selected, Warranted, Deserved, LeftOnRelay;
    c, delete', process' := 0, delete, process;
    assert log + items[..0] == log;
    while c < |items|
      invariant store.Valid() && old(store.versions) <= store.versions
      invariant c <= |items| && |log| + c < MAX_SCAN_ENVELOPES
      invariant Driven(view, store.versions, log + items[..c], delete', pass, until, process')
      invariant Last(log + items[..c]) == Before(items, log, c)
      invariant c > 0 ==> items[c - 1].number != until
    {
      var item := items[c];
      if item.number <= Before(items, log, c) {
        return c, delete', Disordered, process';
      }
      if item.number > until {
        return c, delete', Stop, process';
      }
      assert log + items[..c + 1] == log + items[..c] + [item];
      var (selected, e) := (Selected(pass, item), DecodeEnvelope(item.envelope));
      if selected && e.Some? {
        ghost var (before, was) := (store.versions, net.core.unresolved);
        var d := net.Process(store, e.value, minute);
        IsWarranted(view, before, store.versions, was, e.value, d);
        if d.fate == Abort {
          return c, delete', Aborting(item), process';
        }
        DrivenLater(view, before, store.versions, log + items[..c], delete', pass, until, process');
        DriveOne(view, store.versions, log + items[..c], delete', pass, until, process', item, d);
        process' := process'[item.number := d];
        if d.fate == Discard {
          delete' := delete' + [item.number];
        }
      } else {
        PassOne(view, store.versions, log + items[..c], delete', pass, until, process', item);
        if selected {
          delete' := delete' + [item.number];
        }
      }
      c := c + 1;
      if |log| + c == MAX_SCAN_ENVELOPES || item.number == until {
        return c, delete', Stop, process';
      }
    }
    return c, delete', More, process';
  }

  // ── Against this relay ────────────────────────────────────────────────────

  /** Page `p` of a pass is fetched from the mailbox as it is then; meanwhile
      entries may be deleted or expire, and new ones arrive, numbered from
      `next` on. */
  ghost predicate Honest(fetch: (nat, nat) -> seq<Item>, boxes: nat -> Mailbox, start: Mailbox, next: nat) {
    && Ascending(start) && |start| <= DEFAULT_MAX_MAILBOX && (forall e :: e in start ==> 1 <= e.number < next)
    && (forall p :: GoodPage(boxes(p), start, next))
    && (forall p, after :: fetch(p, after) == AsItems(Page(boxes(p), after, MAX_FETCH)))
  }

  ghost predicate GoodPage(m: Mailbox, start: Mailbox, next: nat) {
    && Ascending(m)
    && (forall i :: 0 <= i < |m| ==> 1 <= m[i].number && |m[i].envelope| <= MAX_ENVELOPE)
    && (forall e :: e in m ==> e in start || e.number >= next)
  }

  function AsItem(e: Entry): Item {
    Item(e.number, e.envelope)
  }

  /** The entry was consumed, or was gone from the mailbox at some read. */
  ghost predicate Covered(log: seq<Item>, boxes: nat -> Mailbox, pages: nat, e: Entry) {
    AsItem(e) in log || exists q :: 0 <= q < pages && e !in boxes(q)
  }

  ghost predicate CoveredUpTo(log: seq<Item>, boxes: nat -> Mailbox, pages: nat, start: Mailbox, bound: nat) {
    forall e :: e in start && e.number <= bound ==> Covered(log, boxes, pages, e)
  }

  /** Everything consumed was there at the start, or is newer than all of it. */
  ghost predicate OldOrNew(log: seq<Item>, start: Mailbox, next: nat) {
    forall i :: 0 <= i < |log| ==> log[i].number >= next || exists e :: e in start && e.number == log[i].number
  }

  lemma ConsumedRun(m: Mailbox, k: nat, n: nat, c: nat, bound: nat, e: Entry)
    requires Ascending(m) && k + n <= |m| && c <= n && n >= Min(|m| - k, MIN_PAGE)
    requires c < n ==> bound < m[k + c].number
    requires c == n >= MIN_PAGE ==> bound <= m[k + n - 1].number
    requires e in m[k..] && e.number <= bound
    ensures AsItem(e) in AsItems(m[k..k + n])[..c]
  {
    var tail := m[k..];
    var i :| 0 <= i < |tail| && tail[i] == e;
    assert m[k + i] == e;
    assert i < c;
    var items := AsItems(m[k..k + n]);
    assert items[i] == AsItem(e) && items[..c][i] == AsItem(e);
  }

  /** After consuming `c` items of a page, every entry numbered up to `bound` is
      among them, if the page's rest lies beyond `bound`, or the page holds all
      that follows, or reaches `bound`. */
  lemma Consumed(m: Mailbox, after: nat, c: nat, bound: nat, e: Entry)
    requires Ascending(m) && forall i :: 0 <= i < |m| ==> |m[i].envelope| <= MAX_ENVELOPE
    requires e in m && after < e.number <= bound
    requires var items := AsItems(Page(m, after, MAX_FETCH));
             && c <= |items| && (c < |items| ==> bound < items[c].number)
             && (c == |items| >= MIN_PAGE ==> bound <= items[c - 1].number)
    ensures AsItem(e) in AsItems(Page(m, after, MAX_FETCH))[..c]
  {
    hide Page, Ascending, EncodeResponse;
    var k, n := PageIsRun(m, after, MAX_FETCH);
    var i :| 0 <= i < |m| && m[i] == e;
    assert m[k..][i - k] == e;
    ConsumedRun(m, k, n, c, bound, e);
  }

  /** So a page extends what is covered. */
  lemma PageCovers(boxes: nat -> Mailbox, start: Mailbox, next: nat, log: seq<Item>, p: nat, c: nat, bound: nat)
    requires GoodPage(boxes(p), start, next) && CoveredUpTo(log, boxes, p, start, Last(log))
    requires var items := AsItems(Page(boxes(p), Last(log), MAX_FETCH));
             && c <= |items| && (c < |items| ==> bound < items[c].number)
             && (c == |items| >= MIN_PAGE ==> bound <= items[c - 1].number)
    ensures CoveredUpTo(log + AsItems(Page(boxes(p), Last(log), MAX_FETCH))[..c], boxes, p + 1, start, bound)
  {
    hide Page, AsItems;
    var items := AsItems(Page(boxes(p), Last(log), MAX_FETCH));
    forall e | e in start && e.number <= bound
      ensures Covered(log + items[..c], boxes, p + 1, e)
    {
      if e.number <= Last(log) {
        assert Covered(log, boxes, p, e);
      } else if e in boxes(p) {
        Consumed(boxes(p), Last(log), c, bound, e);
      }
    }
  }

  // ── A full count leaves nothing behind ────────────────────────────────────

  ghost predicate NumberBelow(start: Mailbox, k: nat, number: nat) {
    exists j :: 0 <= j < k && j < |start| && start[j].number == number
  }

  /** Distinct numbers found among the first `k` entries number at most `k`. */
  lemma {:induction false} CountBelow(log: seq<Item>, start: Mailbox, k: nat)
    requires Rising(log) && Ascending(start) && k <= |start|
    requires forall i :: 0 <= i < |log| ==> NumberBelow(start, k, log[i].number)
    ensures |log| <= k
  {
    if log != [] {
      var init, top := log[..|log| - 1], log[|log| - 1].number;
      assert NumberBelow(start, k, top);
      var j :| 0 <= j < k && start[j].number == top;
      forall i | 0 <= i < |init|
        ensures NumberBelow(start, j, init[i].number)
      {
        assert init[i] == log[i] && NumberBelow(start, k, log[i].number);
        var l :| 0 <= l < k && start[l].number == log[i].number;
        assert l < j;
      }
      CountBelow(init, start, j);
    }
  }

  /** With a whole mailbox's worth consumed, no entry of the start is beyond the
      last number reached. */
  lemma FullCount(log: seq<Item>, start: Mailbox, next: nat, e: Entry)
    requires Rising(log) && |log| == MAX_SCAN_ENVELOPES && OldOrNew(log, start, next)
    requires Ascending(start) && |start| <= DEFAULT_MAX_MAILBOX && e in start && (forall f :: f in start ==> f.number < next)
    ensures e.number <= Last(log)
  {
    if e.number > Last(log) {
      var k :| 0 <= k < |start| && start[k] == e;
      forall i | 0 <= i < |log|
        ensures NumberBelow(start, k, log[i].number)
      {
        assert log[i].number <= Last(log);
        var f :| f in start && f.number == log[i].number;
        var j :| 0 <= j < |start| && start[j] == f;
        assert j < k;
      }
      CountBelow(log, start, k);
      assert false;
    }
  }

  // ── One pass ──────────────────────────────────────────────────────────────

  lemma PageRises(m: Mailbox, start: Mailbox, next: nat, after: nat)
    requires GoodPage(m, start, next)
    ensures var items := AsItems(Page(m, after, MAX_FETCH));
            && |items| <= MAX_FETCH && Rising(items) && OldOrNew(items, start, next)
            && (forall i :: 0 <= i < |items| ==> items[i].number > after)
  {
    var k, n := PageIsRun(m, after, MAX_FETCH);
    hide Page, EncodeResponse;
    var items := AsItems(m[k..k + n]);
    forall i | 0 <= i < |items|
      ensures items[i].number > after
      ensures items[i].number >= next || exists e :: e in start && e.number == items[i].number
    {
      assert m[k + i] in m && items[i].number == m[k + i].number;
    }
    forall i, j | 0 <= i < j < |items|
      ensures items[i].number < items[j].number
    {
      assert m[k + i].number < m[k + j].number;
    }
  }

  /** The items consumed so far of an honest page keep the log old or new. */
  lemma LogGrows(log: seq<Item>, items: seq<Item>, c: nat, start: Mailbox, next: nat)
    requires OldOrNew(log, start, next) && OldOrNew(items, start, next) && c <= |items|
    ensures OldOrNew(log + items[..c], start, next)
  {
  }

  /** Why a pass that stopped has covered everything up to `until`. */
  lemma StoppedCovers(boxes: nat -> Mailbox, start: Mailbox, next: nat, log: seq<Item>, p: nat, c: nat, until: U64)
    requires GoodPage(boxes(p), start, next) && CoveredUpTo(log, boxes, p, start, Last(log))
    requires Ascending(start) && |start| <= DEFAULT_MAX_MAILBOX && (forall e :: e in start ==> e.number < next)
    requires OldOrNew(log, start, next)
    requires var items := AsItems(Page(boxes(p), Last(log), MAX_FETCH));
             && c <= |items| && Rising(log + items[..c])
             && Last(log + items[..c]) == Before(items, log, c)
             && (|| |log| + c == MAX_SCAN_ENVELOPES
                 || (c > 0 && items[c - 1].number == until)
                 || (c < |items| && items[c].number > until)
                 || (c == |items| && |items| < MIN_PAGE))
    ensures CoveredUpTo(log + AsItems(Page(boxes(p), Last(log), MAX_FETCH))[..c], boxes, p + 1, start, until)
  {
    var items := AsItems(Page(boxes(p), Last(log), MAX_FETCH));
    var log' := log + items[..c];
    PageRises(boxes(p), start, next, Last(log));
    hide Page, GoodPage, AsItems;
    if (c < |items| && items[c].number > until) || (c == |items| && |items| < MIN_PAGE) {
      PageCovers(boxes, start, next, log, p, c, until);
    } else {
      PageCovers(boxes, start, next, log, p, c, Last(log'));
      if |log'| == MAX_SCAN_ENVELOPES {
        LogGrows(log, items, c, start, next);
        forall e | e in start && e.number <= until
          ensures e.number <= Last(log')
        {
          FullCount(log', start, next, e);
        }
      }
    }
  }

  /** What holds between the pages of a pass against this relay. */
  ghost predicate Caught(log: seq<Item>, boxes: nat -> Mailbox, pages: nat, start: Mailbox, next: nat, bound: nat) {
    CoveredUpTo(log, boxes, pages, start, bound) && OldOrNew(log, start, next)
  }

  /** Fetches one page and consumes it. */
  method ScanNext(net: NetworkMessenger, store: EncryptedStore, minute: Minute, fetch: (nat, nat) -> seq<Item>, page: nat,
                  pass: Pass, until: U64, process: Processing, log: seq<Item>, delete: seq<U64>, ghost view: View,
                  ghost boxes: nat -> Mailbox, ghost start: Mailbox, ghost next: nat)
    returns (log': seq<Item>, delete': seq<U64>, verdict: Verdict, process': Processing)
    requires store.Valid() && |log| < MAX_SCAN_ENVELOPES && view == ViewOf(net, minute, view.since) && view.since <= |store.versions|
    requires Driven(view, store.versions, log, delete, pass, until, process)
    requires Honest(fetch, boxes, start, next) ==> Caught(log, boxes, page, start, next, Last(log))
    modifies net.core, store
    ensures store.Valid() && old(store.versions) <= store.versions
    ensures verdict.More? || verdict.Stop? ==>
              Driven(view, store.versions, log', delete', pass, until, process')
    ensures verdict.More? ==> |log| + MIN_PAGE <= |log'| < MAX_SCAN_ENVELOPES
    ensures verdict.Disordered? ==> BadPage(fetch(page, Last(log)), Last(log))
    ensures !verdict.Disordered? ==> |fetch(page, Last(log))| <= MAX_FETCH
    ensures verdict.Aborting? ==> verdict.item in fetch(page, Last(log)) && Stuck(view, store.versions, pass, verdict.item)
    ensures Honest(fetch, boxes, start, next) ==>
              && !verdict.Disordered?
              && (verdict.More? ==> Caught(log', boxes, page + 1, start, next, Last(log')))
              && (verdict.Stop? ==> Caught(log', boxes, page + 1, start, next, until))
  {
    hide Page, GoodPage, AsItems, Driven, Honest, CoveredUpTo, Covered, OldOrNew, Rising, Rises, Ascending, Doomed, Stuck;
    ghost var honest := Honest(fetch, boxes, start, next);
    var items := fetch(page, Last(log));
    if honest {
      HonestPage(fetch, boxes, start, next, page, Last(log));
      HonestStart(fetch, boxes, start, next);
    }
    if |items| > MAX_FETCH {
      return log, delete, Disordered, process;
    }
    var c;
    c, delete', verdict, process' := ScanPage(net, store, minute, items, pass, until, process, log, delete, view);
    if verdict.Disordered? {
      DisorderedPage(items, log, c);
    }
    log' := log + items[..c];
    if honest {
      LogGrows(log, items, c, start, next);
      if c < |items| {
        NeverDisordered(items, log, c);
      }
    }
    if verdict.More? && |items| < MIN_PAGE {
      verdict := Stop;
    }
    if honest && verdict.Stop? {
      DrivenRises(view, store.versions, log', delete', pass, until, process');
      StoppedCovers(boxes, start, next, log, page, c, until);
    } else if honest && verdict.More? {
      PageCovers(boxes, start, next, log, page, c, Last(log'));
    }
  }

  /** One pass over the mailbox. Against any relay it stays within its limits and
      deletes exactly what it decided to; against this one it also leaves no
      entry of the start out, except one that was gone when it read. */
  method Scan(net: NetworkMessenger, store: EncryptedStore, minute: Minute, fetch: (nat, nat) -> seq<Item>, pass: Pass, until: U64,
              ghost boxes: nat -> Mailbox, ghost start: Mailbox, ghost next: nat)
    returns (outcome: Outcome, log: seq<Item>, pages: nat, process: Processing)
    requires store.Valid()
    modifies net.core, store
    ensures store.Valid() && old(store.versions) <= store.versions
    ensures pages <= MAX_SCAN_PAGES
    ensures outcome.Reached? ==>
              && Driven(ViewOf(net, minute, |old(store.versions)|), store.versions, log, outcome.deleted, pass, until, process)
              && outcome.end == if log == [] then None else Some(Last(log))
    ensures outcome.BadRelay? ==> pages > 0 && AnsweredBadly(fetch, pages - 1)
    ensures outcome.Aborted? ==>
              && pages > 0 && Sent(fetch, pages - 1, outcome.item)
              && Stuck(ViewOf(net, minute, |old(store.versions)|), store.versions, pass, outcome.item)
    ensures Honest(fetch, boxes, start, next) ==>
              && !outcome.BadRelay?
              && (outcome.Reached? ==> Caught(log, boxes, pages, start, next, until))
  {
    hide Page, GoodPage, AsItems, Driven, Honest, CoveredUpTo, Covered, OldOrNew, Rising, Ascending, Stuck, BadPage, AnsweredBadly, Sent;
    var delete: seq<U64> := [];
    log, pages, process := [], 0, map[];
    ghost var view := ViewOf(net, minute, |store.versions|);
    EmptyDriven(view, store.versions, pass, until);
    ghost var honest := Honest(fetch, boxes, start, next);
    if honest {
      HonestStart(fetch, boxes, start, next);
    }
    while pages < MAX_SCAN_PAGES
      invariant store.Valid() && old(store.versions) <= store.versions
      invariant pages <= MAX_SCAN_PAGES && |log| < MAX_SCAN_ENVELOPES
      invariant Driven(view, store.versions, log, delete, pass, until, process)
      invariant honest ==> Caught(log, boxes, pages, start, next, Last(log))
      invariant |log| >= MIN_PAGE * pages
    {
      var verdict;
      ghost var after := Last(log);
      log, delete, verdict, process :=
        ScanNext(net, store, minute, fetch, pages, pass, until, process, log, delete, view, boxes, start, next);
      pages := pages + 1;
      match verdict
      case Disordered =>
        AnswerWasBad(fetch, pages - 1, after);
        return BadRelay, log, pages, process;
      case Aborting(item) =>
        WasSent(fetch, pages - 1, after, item);
        return Aborted(item), log, pages, process;
      case Stop => return Reached(if log == [] then None else Some(Last(log)), delete), log, pages, process;
      case More =>
    }
    assert false;
  }

  lemma EmptyDriven(view: View, versions: seq<Contents>, pass: Pass, until: U64)
    ensures Driven(view, versions, [], [], pass, until, map[])
  {
  }

  lemma DrivenRises(view: View, versions: seq<Contents>, log: seq<Item>, delete: seq<U64>, pass: Pass,
                    until: U64, process: Processing)
    requires Driven(view, versions, log, delete, pass, until, process)
    ensures Rising(log)
  {
  }

  lemma HonestStart(fetch: (nat, nat) -> seq<Item>, boxes: nat -> Mailbox, start: Mailbox, next: nat)
    requires Honest(fetch, boxes, start, next)
    ensures CoveredUpTo([], boxes, 0, start, 0) && OldOrNew([], start, next)
    ensures Ascending(start) && |start| <= DEFAULT_MAX_MAILBOX && forall e :: e in start ==> e.number < next
  {
  }

  /** No relay that keeps to the protocol sends this page. */
  predicate BadPage(items: seq<Item>, after: nat) {
    |items| > MAX_FETCH || !Rises(items, after)
  }

  predicate AnswersBadly(fetch: (nat, nat) -> seq<Item>, page: nat, after: nat) {
    BadPage(fetch(page, after), after)
  }

  ghost predicate AnsweredBadly(fetch: (nat, nat) -> seq<Item>, page: nat) {
    exists after :: AnswersBadly(fetch, page, after)
  }

  predicate Sends(fetch: (nat, nat) -> seq<Item>, page: nat, after: nat, item: Item) {
    item in fetch(page, after)
  }

  ghost predicate Sent(fetch: (nat, nat) -> seq<Item>, page: nat, item: Item) {
    exists after :: Sends(fetch, page, after, item)
  }

  lemma AnswerWasBad(fetch: (nat, nat) -> seq<Item>, page: nat, after: nat)
    requires BadPage(fetch(page, after), after)
    ensures AnsweredBadly(fetch, page)
  {
    assert AnswersBadly(fetch, page, after);
  }

  lemma WasSent(fetch: (nat, nat) -> seq<Item>, page: nat, after: nat, item: Item)
    requires item in fetch(page, after)
    ensures Sent(fetch, page, item)
  {
    assert Sends(fetch, page, after, item);
  }

  lemma DisorderedPage(items: seq<Item>, log: seq<Item>, c: nat)
    requires c < |items| && items[c].number <= Before(items, log, c)
    ensures BadPage(items, Last(log))
  {
  }

  predicate Rises(items: seq<Item>, after: nat) {
    Rising(items) && forall i :: 0 <= i < |items| ==> items[i].number > after
  }

  lemma NeverDisordered(items: seq<Item>, log: seq<Item>, c: nat)
    requires Rises(items, Last(log)) && c < |items|
    ensures items[c].number > Before(items, log, c)
  {
  }

  lemma HonestPage(fetch: (nat, nat) -> seq<Item>, boxes: nat -> Mailbox, start: Mailbox, next: nat, p: nat, after: nat)
    requires Honest(fetch, boxes, start, next)
    ensures GoodPage(boxes(p), start, next)
    ensures var items := fetch(p, after);
            && items == AsItems(Page(boxes(p), after, MAX_FETCH))
            && |items| <= MAX_FETCH && OldOrNew(items, start, next)
            && Rises(items, after)
  {
    PageRises(boxes(p), start, next, after);
    hide Page;
  }

  // ── A whole round ────────────────────────────────────────────────────────

  /** Handshakes are handled in the first pass, everything else in the second,
      unless the entry was gone when that pass, or the one before it, read. */
  ghost predicate Handled(log1: seq<Item>, log2: seq<Item>, boxes1: nat -> Mailbox, boxes2: nat -> Mailbox,
                          pages1: nat, pages2: nat, e: Entry)
  {
    if IsHandshake(AsItem(e)) then Covered(log1, boxes1, pages1, e)
    else Covered(log2, boxes2, pages2, e) || exists q :: 0 <= q < pages1 && e !in boxes1(q)
  }

  /** A pass that is part of a round, which began with `since` versions. */
  method ScanSince(net: NetworkMessenger, store: EncryptedStore, minute: Minute, fetch: (nat, nat) -> seq<Item>, pass: Pass,
                   until: U64, ghost since: nat, ghost boxes: nat -> Mailbox, ghost start: Mailbox, ghost next: nat)
    returns (outcome: Outcome, log: seq<Item>, pages: nat, process: Processing)
    requires store.Valid() && since <= |store.versions|
    modifies net.core, store
    ensures store.Valid() && old(store.versions) <= store.versions
    ensures pages <= MAX_SCAN_PAGES
    ensures outcome.Reached? ==>
              Driven(ViewOf(net, minute, since), store.versions, log, outcome.deleted, pass, until, process)
    ensures outcome.BadRelay? ==> pages > 0 && AnsweredBadly(fetch, pages - 1)
    ensures outcome.Aborted? ==> Stuck(ViewOf(net, minute, since), store.versions, pass, outcome.item)
    ensures Honest(fetch, boxes, start, next) ==>
              && !outcome.BadRelay?
              && (outcome.Reached? ==> Caught(log, boxes, pages, start, next, until))
  {
    hide Honest, Driven, Stuck, AnsweredBadly, Sent, CoveredUpTo, OldOrNew;
    ghost var mid := |store.versions|;
    outcome, log, pages, process := Scan(net, store, minute, fetch, pass, until, boxes, start, next);
    if outcome.Reached? {
      DrivenSince(net, minute, mid, since, store.versions, log, outcome.deleted, pass, until, process);
    } else if outcome.Aborted? {
      StuckSince(net, minute, mid, since, store.versions, pass, outcome.item);
    }
  }

  /** Both passes of a round: every handshake of the part scanned first, then
      everything else in that same part. */
  method SyncRound(net: NetworkMessenger, store: EncryptedStore, minute: Minute,
                   fetch1: (nat, nat) -> seq<Item>, fetch2: (nat, nat) -> seq<Item>,
                   ghost boxes1: nat -> Mailbox, ghost boxes2: nat -> Mailbox, ghost start: Mailbox, ghost next: nat)
    returns (first: Outcome, second: Option<Outcome>, log1: seq<Item>, log2: seq<Item>, pages1: nat, pages2: nat,
             process1: Processing, process2: Processing)
    requires store.Valid()
    modifies net.core, store
    ensures store.Valid() && old(store.versions) <= store.versions
    ensures pages1 <= MAX_SCAN_PAGES && pages2 <= MAX_SCAN_PAGES
    ensures first.Reached? ==>
              Driven(ViewOf(net, minute, |old(store.versions)|), store.versions, log1, first.deleted, Handshakes, U64_MAX, process1)
    ensures second.Some? <==> first.Reached? && log1 != []
    ensures second.Some? && second.value.Reached? ==>
              Driven(ViewOf(net, minute, |old(store.versions)|), store.versions, log2, second.value.deleted, Messages,
                     Last(log1), process2)
    ensures first.BadRelay? ==> pages1 > 0 && AnsweredBadly(fetch1, pages1 - 1)
    ensures second == Some(BadRelay) ==> pages2 > 0 && AnsweredBadly(fetch2, pages2 - 1)
    ensures first.Aborted? ==> Stuck(ViewOf(net, minute, |old(store.versions)|), store.versions, Handshakes, first.item)
    ensures second.Some? && second.value.Aborted? ==>
              Stuck(ViewOf(net, minute, |old(store.versions)|), store.versions, Messages, second.value.item)
    ensures Honest(fetch1, boxes1, start, next) && Honest(fetch2, boxes2, start, next) ==>
              && !first.BadRelay? && (second.Some? ==> !second.value.BadRelay?)
              && (first.Reached? && (second.Some? ==> second.value.Reached?) ==>
                    forall e :: e in start && e.number <= U64_MAX ==> Handled(log1, log2, boxes1, boxes2, pages1, pages2, e))
  {
    second, log2, pages2, process2 := None, [], 0, map[];
    hide Honest, Driven, GoodPage, OldOrNew, Selected, Stuck, AnsweredBadly, Sent;
    ghost var view := ViewOf(net, minute, |store.versions|);
    first, log1, pages1, process1 := Scan(net, store, minute, fetch1, Handshakes, U64_MAX, boxes1, start, next);
    if first.Reached? && first.end.Some? {
      ghost var mid := store.versions;
      var outcome;
      assert Last(log1) <= U64_MAX by {
        ReachedWithin(view, mid, log1, first.deleted, Handshakes, U64_MAX, process1);
      }
      outcome, log2, pages2, process2 :=
        ScanSince(net, store, minute, fetch2, Messages, first.end.value, view.since, boxes2, start, next);
      second := Some(outcome);
      DrivenLater(view, mid, store.versions, log1, first.deleted, Handshakes, U64_MAX, process1);
      if Honest(fetch1, boxes1, start, next) {
        forall e | e in start && AsItem(e) in log1
          ensures e.number <= Last(log1)
        {
          InLog(view, mid, log1, first.deleted, Handshakes, U64_MAX, process1, AsItem(e));
        }
      }
    }
  }

  lemma WarrantedSince(net: NetworkMessenger, minute: Minute, since: nat, least: nat, versions: seq<Contents>, e: Envelope, d: Decision)
    requires least <= since && Warranted(ViewOf(net, minute, since), versions, e, d)
    ensures Warranted(ViewOf(net, minute, least), versions, e, d)
  {
    hide Deserved, LeftOnRelay;
    DeservedLater(net.core.device, net.digest, net.reading, versions, versions, since, least, minute, e, d);
    var before: seq<Contents>, now: seq<Contents>, was: map<nat, Unresolved> :|
      ExplainedAt(ViewOf(net, minute, since), versions, e, d, before, now, was);
    assert ExplainedAt(ViewOf(net, minute, least), versions, e, d, before, now, was);
  }

  lemma DrivenSince(net: NetworkMessenger, minute: Minute, since: nat, least: nat, versions: seq<Contents>, log: seq<Item>,
                    delete: seq<U64>, pass: Pass, until: U64, process: Processing)
    requires least <= since && Driven(ViewOf(net, minute, since), versions, log, delete, pass, until, process)
    ensures Driven(ViewOf(net, minute, least), versions, log, delete, pass, until, process)
  {
    hide Progress, Warranted;
    forall i | 0 <= i < |log|
      ensures ItemEarned(ViewOf(net, minute, least), versions, log[i], process)
    {
      assert ItemEarned(ViewOf(net, minute, since), versions, log[i], process);
      var e := DecodeEnvelope(log[i].envelope);
      if e.Some? && log[i].number in process {
        WarrantedSince(net, minute, since, least, versions, e.value, process[log[i].number]);
      }
    }
  }

  lemma StuckSince(net: NetworkMessenger, minute: Minute, since: nat, least: nat, versions: seq<Contents>, pass: Pass, item: Item)
    requires least <= since && Stuck(ViewOf(net, minute, since), versions, pass, item)
    ensures Stuck(ViewOf(net, minute, least), versions, pass, item)
  {
    hide Warranted, Selected;
    var e := DecodeEnvelope(item.envelope).value;
    var d: Decision :| d.fate.Abort? && Warranted(ViewOf(net, minute, since), versions, e, d);
    WarrantedSince(net, minute, since, least, versions, e, d);
  }

  lemma ReachedWithin(view: View, versions: seq<Contents>, log: seq<Item>, delete: seq<U64>, pass: Pass,
                      until: U64, process: Processing)
    requires Driven(view, versions, log, delete, pass, until, process)
    ensures Last(log) <= until
  {
  }

  lemma InLog(view: View, versions: seq<Contents>, log: seq<Item>, delete: seq<U64>, pass: Pass,
              until: U64, process: Processing, i: Item)
    requires Driven(view, versions, log, delete, pass, until, process) && i in log
    ensures i.number <= Last(log)
  {
  }

  /** Nothing is lost by a round: whatever a pass has the relay delete did not
      decode, or was dropped for a reason that holds — a message only if the store
      holds it and it was acted on, its sender is no contact, or nothing can ever
      come of it. */
  lemma NothingLost(view: View, versions: seq<Contents>, log: seq<Item>, delete: seq<U64>, pass: Pass, until: U64,
                    process: Processing, number: U64) returns (i: nat)
    requires Driven(view, versions, log, delete, pass, until, process) && number in delete
    ensures i < |log| && log[i].number == number && Selected(pass, log[i])
    ensures var e := DecodeEnvelope(log[i].envelope);
            e.Some? ==>
              && number in process && process[number].fate.Discard?
              && (e.value.HandshakeEnvelope? ==>
                    var (d, p) := (process[number], view.reading.identity(e.value.sender));
                    || (d.reason.Unpinned? && !view.reading.pinned(p))
                    || HandshakeDropped(view.device, versions, view.since, p, view.reading.handshake(e.value.body), d.reason))
              && (e.value.MessageEnvelope? ==>
                    var (d, p) := (process[number], view.reading.identity(e.value.sender));
                    var (handle, wire) := (view.device.handleOf(p), view.reading.wire(e.value.body));
                    || (d.reason.HeldHere? && (Consistent(versions, handle, p) ==> Held(versions, p, wire))
                        && ReceivedFor(view.digest, versions, view.since, handle, wire, view.minute, d.reason.received))
                    || (d.reason.Unpinned? && !view.reading.pinned(p))
                    || (d.reason.Failed? && Hopeless(d.reason.error)
                        && HopelessCause(view.device, versions, view.since, handle, wire, d.reason.error)))
  {
    hide Selected, Hopeless, Consistent, Held, HopelessCause, ReceivedFor, HandshakeDropped, ExplainedAt;
    DeletesExactly(log, pass, process, number);
    i :| 0 <= i < |log| && log[i].number == number && Selected(pass, log[i]) && FateOf(log[i], process) == Discard;
    assert ItemEarned(view, versions, log[i], process);
  }

  /** Nothing is left out by a pass: every handshake it consumed in the first pass,
      and every message in the second, was processed; there, what does not decode
      is deleted. */
  lemma AllProcessed(view: View, versions: seq<Contents>, log: seq<Item>, delete: seq<U64>, pass: Pass, until: U64,
                     process: Processing, i: nat)
    requires Driven(view, versions, log, delete, pass, until, process) && i < |log|
    ensures match DecodeEnvelope(log[i].envelope)
            case Some(e) =>
              (e.HandshakeEnvelope? <==> pass.Handshakes?) ==>
                && log[i].number in process && process[log[i].number].fate != Abort
                && Warranted(view, versions, e, process[log[i].number])
                && (process[log[i].number].fate.Discard? <==> log[i].number in delete)
            case None => pass.Messages? ==> log[i].number in delete
  {
    hide Warranted;
    assert ItemEarned(view, versions, log[i], process);
    DeletesExactly(log, pass, process, log[i].number);
    if log[i].number in delete {
      var j :| 0 <= j < |log| && log[j].number == log[i].number && Selected(pass, log[j]) && FateOf(log[j], process) == Discard;
      assert i == j;
    }
  }

  /** What a pass deletes is exactly what it selected and decided to discard, and
      nothing twice. */
  lemma {:induction false} DeletesExactly(log: seq<Item>, pass: Pass, process: Processing, number: U64)
    requires Rising(log)
    ensures number in Doomed(log, pass, process) <==>
            exists i :: 0 <= i < |log| && log[i].number == number && Selected(pass, log[i]) && FateOf(log[i], process) == Discard
    ensures forall i, j :: 0 <= i < j < |Doomed(log, pass, process)| ==>
              Doomed(log, pass, process)[i] < Doomed(log, pass, process)[j]
    ensures forall i :: 0 <= i < |Doomed(log, pass, process)| ==> Doomed(log, pass, process)[i] <= Last(log)
  {
    hide Selected, FateOf;
    if log != [] {
      var init, top := log[..|log| - 1], log[|log| - 1];
      DeletesExactly(init, pass, process, number);
      assert forall i :: 0 <= i < |init| ==> init[i] == log[i];
      assert init != [] ==> Last(init) < top.number;
      if number in Doomed(init, pass, process) {
        var i :| 0 <= i < |init| && init[i].number == number && Selected(pass, init[i]) && FateOf(init[i], process) == Discard;
        assert log[i].number == number && Selected(pass, log[i]) && FateOf(log[i], process) == Discard;
      }
    }
  }

  // ── The relay as a pass sees it ───────────────────────────────────────────

  /** The mailbox when read `p` of a pass is answered: at version `at(p)` of the
      relay and time `when(p)`. */
  function BoxAt(states: seq<State>, config: Config, key: Key32, at: nat -> nat, when: nat -> nat, p: nat): Mailbox {
    if at(p) < |states| then Live(Box(states[at(p)], key), when(p), config.ttl) else []
  }

  /** In any run of the relay, with any requests of others between the reads of a
      pass, the pass sees what `Honest` asks for. */
  lemma RelayIsHonest(states: seq<State>, calls: seq<Call>, config: Config, key: Key32, i: nat, at: nat -> nat, when: nat -> nat)
    requires IsRun(states, calls, config) && Supported(config) && forall p :: i <= at(p) < |states|
    ensures var boxes := (p: nat) => BoxAt(states, config, key, at, when, p);
            var fetch := (p: nat, after: nat) => AsItems(Page(boxes(p), after, MAX_FETCH));
            && Honest(fetch, boxes, Box(states[i], key), states[i].next)
            && forall p: nat, after: U64 ::
                 HandleFetch(states[at(p)], key, after, MAX_FETCH, when(p), config).1 == Items(fetch(p, after))
  {
    assert i <= at(0) < |states|;
    var start, next := Box(states[i], key), states[i].next;
    RunIsSound(states, calls, config, i);
    assert GoodBox(start, next, config);
    forall p: nat
      ensures GoodPage(BoxAt(states, config, key, at, when, p), start, next)
    {
      PageAtIsGood(states, calls, config, key, i, at(p), when(p));
    }
    forall p: nat, after: U64
      ensures HandleFetch(states[at(p)], key, after, MAX_FETCH, when(p), config).1
              == Items(AsItems(Page(BoxAt(states, config, key, at, when, p), after, MAX_FETCH)))
    {
      FetchIs(states[at(p)], key, after, MAX_FETCH, when(p), config);
    }
    hide Page, GoodPage, Live, Sound, HandleFetch;
  }

  lemma PageAtIsGood(states: seq<State>, calls: seq<Call>, config: Config, key: Key32, i: nat, j: nat, now: nat)
    requires IsRun(states, calls, config) && i <= j < |states|
    ensures GoodPage(Live(Box(states[j], key), now, config.ttl), Box(states[i], key), states[i].next)
  {
    var m := Live(Box(states[j], key), now, config.ttl);
    RunIsSound(states, calls, config, j);
    LiveIsGood(states[j], key, now, config);
    LiveThins(Box(states[j], key), now, config.ttl);
    forall e | e in m
      ensures e in Box(states[i], key) || e.number >= states[i].next
    {
      ThinnedHolds(Box(states[j], key), m, e);
      OldOrNewer(states, calls, config, i, j, key, e);
    }
  }
}

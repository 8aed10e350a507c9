/** `RELAY_PROTOCOL_V1`: request and response bodies. */
module RelayProtocol {
  import opened Prelude
  import opened Bytes

  const MAX_FRAME: nat := 0x10_0000
  const MAX_ENVELOPE: nat := 0x1_0000
  const MIN_PAGE: nat := (MAX_FRAME - 3) / (12 + MAX_ENVELOPE)
  const MAX_BUNDLE: nat := 1024
  const MAX_FETCH: nat := 256
  const DEFAULT_MAX_MAILBOX: nat := 4096

  datatype Request =
    | PutBundle(owner: Key32, bundle: Bytes)
    | GetBundle(owner: Key32)
    | Send(recipient: Key32, envelope: Bytes)
    | Fetch(recipient: Key32, max: U16)
    | Delete(recipient: Key32, seqs: seq<U64>)
    | FetchAfter(recipient: Key32, after: U64, max: U16)

  datatype ErrorCode = BadRequest | TooLarge | Full

  datatype Item = Item(number: U64, envelope: Bytes)

  datatype Response =
    | Done
    | Bundle(bundle: Bytes)
    | NotFound
    | Accepted(number: U64)
    | Items(items: seq<Item>)
    | Error(code: ErrorCode)

  // ── Layouts ───────────────────────────────────────────────────────────────

  function EncodeSeqs(s: seq<U64>): (b: Bytes)
    ensures |b| == 8 * |s|
  {
    if s == [] then [] else ToBe(s[0], 8) + EncodeSeqs(s[1..])
  }

  function DecodeSeqs(b: Bytes): (s: seq<U64>)
    requires |b| % 8 == 0
    ensures |s| == |b| / 8
  {
    if b == [] then [] else [U64At(b[..8])] + DecodeSeqs(b[8..])
  }

  function EncodeRequest(r: Request): Bytes {
    match r
    case PutBundle(owner, bundle) => [1] + owner + bundle
    case GetBundle(owner) => [2] + owner
    case Send(recipient, envelope) => [3] + recipient + envelope
    case Fetch(recipient, max) => [4] + recipient + ToBe(max, 2)
    case Delete(recipient, seqs) => [5] + recipient + ToBe(|seqs|, 2) + EncodeSeqs(seqs)
    case FetchAfter(recipient, after, max) => [6] + recipient + ToBe(after, 8) + ToBe(max, 2)
  }

  /** `None` is a malformed body: a field missing, or bytes left over. */
  function DecodeRequest(b: Bytes): Option<Request> {
    if |b| < 33 then None
    else
      var (key, rest) := (b[1..33], b[33..]);
      match b[0]
      case 1 => Some(PutBundle(key, rest))
      case 2 => if rest == [] then Some(GetBundle(key)) else None
      case 3 => Some(Send(key, rest))
      case 4 => if |rest| == 2 then Some(Fetch(key, U16At(rest))) else None
      case 5 =>
        if |rest| < 2 || |rest| != 2 + 8 * U16At(rest[..2]) then None
        else Some(Delete(key, DecodeSeqs(rest[2..])))
      case 6 => if |rest| == 10 then Some(FetchAfter(key, U64At(rest[..8]), U16At(rest[8..]))) else None
      case _ => None
  }

  function EncodeItem(i: Item): (b: Bytes)
    ensures |b| == 12 + |i.envelope|
  {
    ToBe(i.number, 8) + ToBe(|i.envelope|, 4) + i.envelope
  }

  function EncodeItems(s: seq<Item>): Bytes {
    if s == [] then [] else EncodeItem(s[0]) + EncodeItems(s[1..])
  }

  /** Exactly `n` items and nothing after them. */
  function DecodeItems(b: Bytes, n: nat): Option<seq<Item>> {
    if n == 0 then (if b == [] then Some([]) else None)
    else if |b| < 12 then None
    else
      var len := U32At(b[8..12]);
      if |b| < 12 + len then None
      else
        match DecodeItems(b[12 + len..], n - 1)
        case None => None
        case Some(rest) => Some([Item(U64At(b[..8]), b[12..12 + len])] + rest)
  }

  function EncodeResponse(r: Response): Bytes {
    match r
    case Done => [0]
    case Bundle(b) => [0] + b
    case NotFound => [1]
    case Accepted(number) => [0] + ToBe(number, 8)
    case Items(items) => [0] + ToBe(|items|, 2) + EncodeItems(items)
    case Error(BadRequest) => [2]
    case Error(TooLarge) => [3]
    case Error(Full) => [4]
  }

  /** The layout of a response depends on the request it answers. */
  function DecodeResponse(req: Request, b: Bytes): Option<Response> {
    if b == [] then None
    else
      var rest := b[1..];
      match b[0]
      case 0 => DecodeSuccess(req, rest)
      case 1 => if req.GetBundle? && rest == [] then Some(NotFound) else None
      case 2 => if rest == [] then Some(Error(BadRequest)) else None
      case 3 => if rest == [] then Some(Error(TooLarge)) else None
      case 4 => if rest == [] then Some(Error(Full)) else None
      case _ => None
  }

  function DecodeSuccess(req: Request, rest: Bytes): Option<Response> {
    match req
    case PutBundle(_, _) => if rest == [] then Some(Done) else None
    case Delete(_, _) => if rest == [] then Some(Done) else None
    case GetBundle(_) => Some(Bundle(rest))
    case Send(_, _) => if |rest| == 8 then Some(Accepted(U64At(rest))) else None
    case _ =>
      if |rest| < 2 then None
      else
        match DecodeItems(rest[2..], U16At(rest[..2]))
        case None => None
        case Some(items) => Some(Items(items))
  }

  // ── Round trips ───────────────────────────────────────────────────────────

  lemma {:induction false} SeqsRoundTrip(s: seq<U64>)
    ensures DecodeSeqs(EncodeSeqs(s)) == s
  {
    hide ToBe, FromBe, U16At, U32At, U64At;
    if s != [] {
      U64RoundTrip(s[0]);
      SeqsRoundTrip(s[1..]);
      assert EncodeSeqs(s)[..8] == ToBe(s[0], 8) && EncodeSeqs(s)[8..] == EncodeSeqs(s[1..]);
    }
  }

  lemma {:induction false} SeqsBytes(b: Bytes)
    requires |b| % 8 == 0
    ensures EncodeSeqs(DecodeSeqs(b)) == b
  {
    hide ToBe, FromBe, U16At, U32At, U64At;
    if b != [] {
      IntegerBytes(b[..8]);
      SeqsBytes(b[8..]);
      assert DecodeSeqs(b)[1..] == DecodeSeqs(b[8..]);
      assert b == b[..8] + b[8..];
    }
  }

  /** A request decodes to itself exactly if it names at most 65535 numbers to
      delete: the count is written as 16 bits. */
  lemma RequestRoundTrip(r: Request)
    ensures DecodeRequest(EncodeRequest(r)) == Some(r) <==> (r.Delete? ==> |r.seqs| <= 0xFFFF)
  {
    hide ToBe, FromBe, U16At, U32At, U64At;
    var b := EncodeRequest(r);
    var key := match r case PutBundle(o, _) => o case GetBundle(o) => o case Send(k, _) => k
               case Fetch(k, _) => k case Delete(k, _) => k case FetchAfter(k, _, _) => k;
    assert b[1..33] == key;
    match r
    case PutBundle(_, bundle) => assert b[33..] == bundle;
    case GetBundle(_) => assert b[33..] == [];
    case Send(_, envelope) => assert b[33..] == envelope;
    case Fetch(_, max) =>
      assert b[33..] == ToBe(max, 2);
      U16RoundTrip(max);
    case Delete(_, seqs) =>
      assert b[33..] == ToBe(|seqs|, 2) + EncodeSeqs(seqs);
      assert b[33..][..2] == ToBe(|seqs|, 2) && b[33..][2..] == EncodeSeqs(seqs);
      U16RoundTrip(|seqs|);
      SeqsRoundTrip(seqs);
    case FetchAfter(_, after, max) =>
      assert b[33..] == ToBe(after, 8) + ToBe(max, 2);
      assert b[33..][..8] == ToBe(after, 8) && b[33..][8..] == ToBe(max, 2);
      U16RoundTrip(max);
      U64RoundTrip(after);
  }

  /** Decoding is exact: every accepted body is the encoding of what it decodes
      to, all of it. */
  lemma RequestBytes(b: Bytes)
    requires DecodeRequest(b).Some?
    ensures EncodeRequest(DecodeRequest(b).value) == b
  {
    hide ToBe, FromBe, U16At, U32At, U64At;
    var rest := b[33..];
    assert b == [b[0]] + b[1..33] + rest;
    match b[0]
    case 4 => IntegerBytes(rest);
    case 5 =>
      IntegerBytes(rest[..2]);
      SeqsBytes(rest[2..]);
      assert rest == rest[..2] + rest[2..];
    case 6 =>
      IntegerBytes(rest[..8]);
      IntegerBytes(rest[8..]);
      assert rest == rest[..8] + rest[8..];
    case _ =>
  }

  predicate Fitting(items: seq<Item>) {
    forall i :: 0 <= i < |items| ==> |items[i].envelope| <= U32_MAX
  }

  lemma ItemsLayout(s: seq<Item>)
    requires s != [] && Fitting(s)
    ensures var (b, e) := (EncodeItems(s), s[0].envelope);
            && |b| >= 12 + |e| && b[..8] == ToBe(s[0].number, 8) && b[8..12] == ToBe(|e|, 4)
            && b[12..12 + |e|] == e && b[12 + |e|..] == EncodeItems(s[1..])
  {
    hide ToBe;
  }

  lemma {:induction false} ItemsRoundTrip(s: seq<Item>)
    requires Fitting(s)
    ensures DecodeItems(EncodeItems(s), |s|) == Some(s)
  {
    hide ToBe, FromBe, U16At, U32At, U64At, EncodeItems;
    if s == [] {
      NoItems();
    } else {
      ItemsLayout(s);
      U64RoundTrip(s[0].number);
      U32RoundTrip(|s[0].envelope|);
      ItemsRoundTrip(s[1..]);
      assert s == [s[0]] + s[1..];
    }
  }

  lemma NoItems()
    ensures EncodeItems([]) == []
  {
  }

  function ItemAt(b: Bytes, len: nat): Item
    requires |b| >= 12 + len
  {
    Item(U64At(b[..8]), b[12..12 + len])
  }

  lemma ItemBytes(b: Bytes, len: nat)
    requires |b| >= 12 + len && U32At(b[8..12]) == len
    ensures EncodeItem(ItemAt(b, len)) + b[12 + len..] == b
  {
    hide ToBe, FromBe, U32At, U64At;
    IntegerBytes(b[..8]);
    IntegerBytes(b[8..12]);
    assert b == b[..8] + b[8..12] + b[12..12 + len] + b[12 + len..];
  }

  lemma {:induction false} ItemsBytes(b: Bytes, n: nat)
    requires DecodeItems(b, n).Some?
    ensures var s := DecodeItems(b, n).value;
            |s| == n && Fitting(s) && EncodeItems(s) == b
  {
    hide ToBe, FromBe, U64At, EncodeItem;
    if n > 0 {
      var len := U32At(b[8..12]);
      ItemsBytes(b[12 + len..], n - 1);
      var rest := DecodeItems(b[12 + len..], n - 1).value;
      assert DecodeItems(b, n).value == [ItemAt(b, len)] + rest;
      assert ([ItemAt(b, len)] + rest)[1..] == rest;
      ItemBytes(b, len);
    }
  }

  /** The responses a request can have. */
  predicate Answers(req: Request, r: Response) {
    match r
    case Done => req.PutBundle? || req.Delete?
    case Bundle(_) => req.GetBundle?
    case NotFound => req.GetBundle?
    case Accepted(_) => req.Send?
    case Items(items) => (req.Fetch? || req.FetchAfter?) && |items| <= 0xFFFF && Fitting(items)
    case Error(_) => true
  }

  lemma ItemsResponseBytes(req: Request, b: Bytes)
    requires (req.Fetch? || req.FetchAfter?) && DecodeResponse(req, b).Some? && b[0] == 0
    ensures var r := DecodeResponse(req, b).value;
            Answers(req, r) && EncodeResponse(r) == b
  {
    hide ToBe, FromBe, U16At, EncodeItems, DecodeItems, Fitting;
    var rest := b[1..];
    IntegerBytes(rest[..2]);
    ItemsBytes(rest[2..], U16At(rest[..2]));
    assert rest == rest[..2] + rest[2..];
    assert b == [b[0]] + rest;
  }

  /** Every accepted response body is the encoding of a response that can answer
      the request. */
  lemma ResponseBytes(req: Request, b: Bytes)
    requires DecodeResponse(req, b).Some?
    ensures var r := DecodeResponse(req, b).value;
            Answers(req, r) && EncodeResponse(r) == b
  {
    hide ToBe, FromBe, U16At, U64At, EncodeItems, DecodeItems, Fitting;
    if (req.Fetch? || req.FetchAfter?) && b[0] == 0 {
      ItemsResponseBytes(req, b);
    } else {
      assert b == [b[0]] + b[1..];
      if b[0] == 0 && req.Send? {
        IntegerBytes(b[1..]);
      }
    }
  }

  lemma ItemsResponseRoundTrip(req: Request, items: seq<Item>)
    requires Answers(req, Items(items))
    ensures DecodeResponse(req, EncodeResponse(Items(items))) == Some(Items(items))
  {
    hide ToBe, FromBe, U16At, EncodeItems, DecodeItems;
    var b := EncodeResponse(Items(items));
    assert b[1..] == ToBe(|items|, 2) + EncodeItems(items);
    assert b[1..][..2] == ToBe(|items|, 2) && b[1..][2..] == EncodeItems(items);
    U16RoundTrip(|items|);
    ItemsRoundTrip(items);
  }

  /** A response decodes to itself exactly if it can answer the request and fits
      its 16- and 32-bit lengths. */
  lemma ResponseRoundTrip(req: Request, r: Response)
    ensures DecodeResponse(req, EncodeResponse(r)) == Some(r) <==> Answers(req, r)
  {
    hide ToBe, FromBe, U16At, U32At, U64At, EncodeItems, DecodeItems, Fitting;
    var b := EncodeResponse(r);
    if DecodeResponse(req, b) == Some(r) {
      ResponseBytes(req, b);
    }
    if Answers(req, r) {
      match r
      case Bundle(bundle) => assert b[1..] == bundle;
      case Accepted(number) =>
        assert b[1..] == ToBe(number, 8);
        U64RoundTrip(number);
      case Items(items) => ItemsResponseRoundTrip(req, items);
      case _ => assert b[1..] == [];
    }
  }

  // ── The codec as it runs: a growing buffer, a shrinking slice ─────────────

  lemma {:induction false} SeqsAppend(s: seq<U64>, n: U64)
    ensures EncodeSeqs(s + [n]) == EncodeSeqs(s) + ToBe(n, 8)
  {
    if s == [] {
      assert EncodeSeqs([n]) == ToBe(n, 8) + [];
    } else {
      SeqsAppend(s[1..], n);
      assert (s + [n])[1..] == s[1..] + [n];
    }
  }

  lemma {:induction false} ItemsAppend(s: seq<Item>, i: Item)
    ensures EncodeItems(s + [i]) == EncodeItems(s) + EncodeItem(i)
  {
    if s == [] {
      assert EncodeItems([i]) == EncodeItem(i) + [];
    } else {
      ItemsAppend(s[1..], i);
      assert (s + [i])[1..] == s[1..] + [i];
    }
  }

  method WriteRequest(r: Request) returns (out: Bytes)
    ensures out == EncodeRequest(r)
  {
    match r
    case PutBundle(owner, bundle) => out := [1] + owner + bundle;
    case GetBundle(owner) => out := [2] + owner;
    case Send(recipient, envelope) => out := [3] + recipient + envelope;
    case Fetch(recipient, max) => out := [4] + recipient + ToBe(max, 2);
    case Delete(recipient, seqs) =>
      out := [5] + recipient + ToBe(|seqs|, 2);
      var head := out;
      for i := 0 to |seqs|
        invariant out == head + EncodeSeqs(seqs[..i])
      {
        SeqsAppend(seqs[..i], seqs[i]);
        assert seqs[..i + 1] == seqs[..i] + [seqs[i]];
        out := out + ToBe(seqs[i], 8);
      }
      assert seqs[..|seqs|] == seqs;
    case FetchAfter(recipient, after, max) => out := [6] + recipient + ToBe(after, 8) + ToBe(max, 2);
  }

  method WriteResponse(r: Response) returns (out: Bytes)
    ensures out == EncodeResponse(r)
  {
    match r
    case Done => out := [0];
    case Bundle(b) => out := [0] + b;
    case NotFound => out := [1];
    case Accepted(number) => out := [0] + ToBe(number, 8);
    case Items(items) =>
      out := [0] + ToBe(|items|, 2);
      var head := out;
      for i := 0 to |items|
        invariant out == head + EncodeItems(items[..i])
      {
        ItemsAppend(items[..i], items[i]);
        assert items[..i + 1] == items[..i] + [items[i]];
        out := out + ToBe(items[i].number, 8);
        out := out + ToBe(|items[i].envelope|, 4);
        out := out + items[i].envelope;
      }
      assert items[..|items|] == items;
    case Error(code) => out := [match code case BadRequest => 2 case TooLarge => 3 case Full => 4];
  }

  /** A slice that fails on any read past its end. */
  class Cursor {
    var rest: Bytes

    constructor (b: Bytes)
      ensures rest == b
    {
      rest := b;
    }

    method Take(n: nat) returns (r: Option<Bytes>)
      modifies this
      ensures r == if n <= |old(rest)| then Some(old(rest)[..n]) else None
      ensures rest == if n <= |old(rest)| then old(rest)[n..] else old(rest)
    {
      if |rest| < n {
        return None;
      }
      r := Some(rest[..n]);
      rest := rest[n..];
    }

    /** Everything left. */
    method Rest() returns (r: Bytes)
      modifies this
      ensures r == old(rest) && rest == []
    {
      r, rest := rest, [];
    }
  }

  lemma {:induction false} SeqsOneMore(b: Bytes)
    requires |b| % 8 == 0 && b != []
    ensures DecodeSeqs(b) == DecodeSeqs(b[..|b| - 8]) + [U64At(b[|b| - 8..])]
  {
    hide U64At;
    if |b| == 8 {
      assert b[..8] == b == b[0..] && b[..0] == [];
    } else {
      SeqsOneMore(b[8..]);
      var n := |b| - 8;
      assert b[8..][..n - 8] == b[..n][8..] && b[8..][n - 8..] == b[n..] && b[..n][..8] == b[..8];
    }
  }

  method ReadSeqs(c: Cursor, n: nat) returns (r: Option<seq<U64>>)
    modifies c
    ensures if 8 * n <= |old(c.rest)| then
              r == Some(DecodeSeqs(old(c.rest)[..8 * n])) && c.rest == old(c.rest)[8 * n..]
            else r == None
  {
    hide U64At;
    var out: seq<U64> := [];
    ghost var start := c.rest;
    for i := 0 to n
      invariant 8 * i <= |start| && c.rest == start[8 * i..]
      invariant out == DecodeSeqs(start[..8 * i])
    {
      var field := c.Take(8);
      if field.None? {
        return None;
      }
      ghost var read := start[..8 * i + 8];
      SeqsOneMore(read);
      assert read[..8 * i] == start[..8 * i] && read[8 * i..] == start[8 * i..][..8];
      out := out + [U64At(field.value)];
    }
    return Some(out);
  }

  method ReadRequest(body: Bytes) returns (r: Option<Request>)
    ensures r == DecodeRequest(body)
  {
    var c := new Cursor(body);
    var op := c.Take(1);
    if op.None? {
      return None;
    }
    var key := c.Take(32);
    if key.None? {
      return None;
    }
    ghost var rest := c.rest;
    assert rest == body[33..] && key.value == body[1..33];
    match op.value[0] {
      case 1 =>
        var bundle := c.Rest();
        r := Some(PutBundle(key.value, bundle));
      case 2 => r := Some(GetBundle(key.value));
      case 3 =>
        var envelope := c.Rest();
        r := Some(Send(key.value, envelope));
      case 4 =>
        var max := c.Take(2);
        if max.None? {
          return None;
        }
        r := Some(Fetch(key.value, U16At(max.value)));
        assert |rest| == 2 ==> rest[..2] == rest;
      case 5 =>
        var count := c.Take(2);
        if count.None? {
          return None;
        }
        var n: nat := U16At(count.value);
        var seqs := ReadSeqs(c, n);
        if seqs.None? {
          return None;
        }
        r := Some(Delete(key.value, seqs.value));
        assert |rest| == 2 + 8 * n ==> rest[2..][..8 * n] == rest[2..];
      case 6 =>
        var after := c.Take(8);
        if after.None? {
          return None;
        }
        var max := c.Take(2);
        if max.None? {
          return None;
        }
        r := Some(FetchAfter(key.value, U64At(after.value), U16At(max.value)));
        assert |rest| == 10 ==> rest[8..][..2] == rest[8..];
      case _ => return None;
    }
    if c.rest != [] {
      return None;
    }
  }

  /** Reads `n` items from the front of a body. */
  method ReadItems(c: Cursor, n: nat) returns (r: Option<seq<Item>>)
    modifies c
    ensures (r.Some? && c.rest == [] ==> DecodeItems(old(c.rest), n) == r)
            && (r.None? || c.rest != [] ==> DecodeItems(old(c.rest), n) == None)
  {
    hide ToBe, FromBe, U32At, U64At;
    var out: seq<Item> := [];
    ghost var start := c.rest;
    assert forall rest: seq<Item> :: out + rest == rest;
    for i := 0 to n
      invariant match DecodeItems(c.rest, n - i)
                case None => DecodeItems(start, n) == None
                case Some(rest) => DecodeItems(start, n) == Some(out + rest)
    {
      ghost var before := c.rest;
      var number := c.Take(8);
      if number.None? {
        return None;
      }
      var length := c.Take(4);
      if length.None? {
        assert |before| < 12;
        return None;
      }
      var envelope := c.Take(U32At(length.value));
      if envelope.None? {
        assert before[8..][..4] == before[8..12];
        return None;
      }
      assert before[8..][..4] == before[8..12];
      assert envelope.value == before[12..12 + |envelope.value|] && c.rest == before[12 + |envelope.value|..];
      var item := Item(U64At(number.value), envelope.value);
      assert forall rest: seq<Item> :: out + ([item] + rest) == (out + [item]) + rest;
      out := out + [item];
    }
    assert out + [] == out;
    return Some(out);
  }

  method ReadResponse(req: Request, body: Bytes) returns (r: Option<Response>)
    ensures r == DecodeResponse(req, body)
  {
    var c := new Cursor(body);
    var status := c.Take(1);
    if status.None? {
      return None;
    }
    ghost var rest := c.rest;
    match status.value[0] {
      case 0 =>
        if req.PutBundle? || req.Delete? {
          r := Some(Done);
        } else if req.GetBundle? {
          var bundle := c.Rest();
          r := Some(Bundle(bundle));
        } else if req.Send? {
          var number := c.Take(8);
          if number.None? {
            return None;
          }
          r := Some(Accepted(U64At(number.value)));
          assert |rest| == 8 ==> rest[..8] == rest;
        } else {
          var count := c.Take(2);
          if count.None? {
            return None;
          }
          var items := ReadItems(c, U16At(count.value));
          if items.None? {
            return None;
          }
          r := Some(Items(items.value));
        }
      case 1 =>
        if !req.GetBundle? {
          return None;
        }
        r := Some(NotFound);
      case 2 => r := Some(Error(BadRequest));
      case 3 => r := Some(Error(TooLarge));
      case 4 => r := Some(Error(Full));
      case _ => return None;
    }
    if c.rest != [] {
      return None;
    }
  }
}

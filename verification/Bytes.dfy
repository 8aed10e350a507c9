/** Byte strings: big-endian integers and fixed-width layouts. */
module Bytes {
  import opened Prelude

  type byte = b: int | 0 <= b < 256
  type Bytes = seq<byte>
  type Key32 = b: Bytes | |b| == 32 witness Zeros(32)

  function Zeros(n: nat): (b: Bytes)
    ensures |b| == n
  {
    seq(n, _ => 0)
  }

  // ── Big-endian integers ───────────────────────────────────────────────────

  function Pow256(k: nat): (p: nat)
    ensures p > 0
  {
    if k == 0 then 1 else 256 * Pow256(k - 1)
  }

  /** The low `k` bytes of `n`. */
  function ToBe(n: nat, k: nat): (b: Bytes)
    ensures |b| == k
  {
    if k == 0 then [] else ToBe(n / 256, k - 1) + [n % 256]
  }

  function FromBe(b: Bytes): (n: nat)
    ensures n < Pow256(|b|)
  {
    if b == [] then 0 else FromBe(b[..|b| - 1]) * 256 + b[|b| - 1]
  }

  lemma {:induction false} FromToBe(n: nat, k: nat)
    requires n < Pow256(k)
    ensures FromBe(ToBe(n, k)) == n
  {
    if k > 0 {
      FromToBe(n / 256, k - 1);
      assert ToBe(n, k)[..k - 1] == ToBe(n / 256, k - 1);
    }
  }

  lemma {:induction false} ToFromBe(b: Bytes)
    ensures ToBe(FromBe(b), |b|) == b
  {
    if b != [] {
      ToFromBe(b[..|b| - 1]);
    }
  }

  lemma Widths()
    ensures Pow256(1) == 0x100 && Pow256(2) == 0x1_0000
    ensures Pow256(4) == 0x1_0000_0000 && Pow256(8) == 0x1_0000_0000_0000_0000
  {
    assert Pow256(3) == 256 * Pow256(2);
    assert Pow256(5) == 256 * Pow256(4);
    assert Pow256(6) == 256 * Pow256(5);
    assert Pow256(7) == 256 * Pow256(6);
  }

  function U16At(b: Bytes): U16
    requires |b| == 2
  {
    Widths();
    FromBe(b)
  }

  function U32At(b: Bytes): U32
    requires |b| == 4
  {
    Widths();
    FromBe(b)
  }

  function U64At(b: Bytes): U64
    requires |b| == 8
  {
    Widths();
    FromBe(b)
  }

  /** Writing a number as a `u16` keeps its low 16 bits. */
  lemma U16RoundTrip(n: nat)
    ensures U16At(ToBe(n, 2)) == n % 0x1_0000
  {
    assert ToBe(n, 2) == [n / 256 % 256, n % 256];
    assert FromBe([n / 256 % 256, n % 256]) == (n / 256 % 256) * 256 + n % 256 by {
      assert [n / 256 % 256, n % 256][..1] == [n / 256 % 256];
      assert [n / 256 % 256][..0] == [];
    }
  }

  lemma U32RoundTrip(n: U32)
    ensures U32At(ToBe(n, 4)) == n
  {
    Widths();
    FromToBe(n, 4);
  }

  lemma U64RoundTrip(n: U64)
    ensures U64At(ToBe(n, 8)) == n
  {
    Widths();
    FromToBe(n, 8);
  }

  lemma IntegerBytes(b: Bytes)
    ensures |b| == 2 ==> ToBe(U16At(b), 2) == b
    ensures |b| == 4 ==> ToBe(U32At(b), 4) == b
    ensures |b| == 8 ==> ToBe(U64At(b), 8) == b
  {
    ToFromBe(b);
  }

  // ── Layouts: fields of fixed widths, then a rest ──────────────────────────

  function Join(parts: seq<Bytes>): Bytes {
    if parts == [] then [] else parts[0] + Join(parts[1..])
  }

  function Sum(widths: seq<nat>): nat {
    if widths == [] then 0 else widths[0] + Sum(widths[1..])
  }

  /** The fields of the given widths from the front of `b`, and what follows. */
  function Split(b: Bytes, widths: seq<nat>): (parts: seq<Bytes>)
    requires Sum(widths) <= |b|
    ensures |parts| == |widths| + 1
    ensures forall i :: 0 <= i < |widths| ==> |parts[i]| == widths[i]
    ensures |parts[|widths|]| == |b| - Sum(widths)
  {
    if widths == [] then [b] else [b[..widths[0]]] + Split(b[widths[0]..], widths[1..])
  }

  predicate Fits(parts: seq<Bytes>, widths: seq<nat>) {
    |parts| == |widths| + 1 && forall i :: 0 <= i < |widths| ==> |parts[i]| == widths[i]
  }

  lemma {:induction false} SplitJoin(parts: seq<Bytes>, widths: seq<nat>)
    requires Fits(parts, widths)
    ensures |Join(parts)| == Sum(widths) + |parts[|widths|]|
    ensures Split(Join(parts), widths) == parts
  {
    if widths == [] {
      assert parts == [parts[0]];
      assert Join(parts) == parts[0];
    } else {
      SplitJoin(parts[1..], widths[1..]);
      assert Join(parts)[..widths[0]] == parts[0];
      assert Join(parts)[widths[0]..] == Join(parts[1..]);
    }
  }

  lemma {:induction false} JoinSplit(b: Bytes, widths: seq<nat>)
    requires Sum(widths) <= |b|
    ensures Join(Split(b, widths)) == b
  {
    if widths == [] {
      assert Join([b]) == b;
    } else {
      JoinSplit(b[widths[0]..], widths[1..]);
      assert Split(b, widths)[1..] == Split(b[widths[0]..], widths[1..]);
    }
  }

  lemma {:induction false} JoinAppend(parts: seq<Bytes>, last: Bytes)
    ensures Join(parts + [last]) == Join(parts) + last
  {
    if parts == [] {
      assert [last][1..] == [];
    } else {
      JoinAppend(parts[1..], last);
      assert (parts + [last])[1..] == parts[1..] + [last];
    }
  }
}

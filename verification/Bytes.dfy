/** Bytes, little-endian integers and the word operations the wire format and the
    random streams are built from.  Words are unbounded naturals; every operation that
    wraps in the program reduces its result explicitly. */
module Bytes {

  type byte = b: int | 0 <= b < 256

  /** Bitwise exclusive or of two naturals, bit by bit. */
  function Xor(a: nat, b: nat): nat
    decreases a + b
  {
    if a == 0 && b == 0 then 0
    else XorBit(a, b) + 2 * Xor(a / 2, b / 2)
  }

  function XorBit(a: nat, b: nat): nat { if a % 2 == b % 2 then 0 else 1 }

  lemma {:induction false} XorSymmetric(a: nat, b: nat)
    ensures Xor(a, b) == Xor(b, a)
    decreases a + b
  {
    if a == 0 && b == 0 {
    } else {
      XorSymmetric(a / 2, b / 2);
    }
  }

  /** The n low bytes of x, least significant first. */
  function LeBytes(x: nat, n: nat): (r: seq<byte>)
    ensures |r| == n
  {
    if n == 0 then [] else [x % 256] + LeBytes(x / 256, n - 1)
  }

  /** The integer a little-endian byte string denotes. */
  function LeValue(s: seq<byte>): nat {
    if s == [] then 0 else s[0] + 256 * LeValue(s[1..])
  }

  function Pow256(n: nat): (p: nat)
    ensures p > 0
  {
    if n == 0 then 1 else 256 * Pow256(n - 1)
  }

  lemma {:induction false} LeRoundTrip(x: nat, n: nat)
    requires x < Pow256(n)
    ensures LeValue(LeBytes(x, n)) == x
  {
    if n == 0 {
    } else {
      LeRoundTrip(x / 256, n - 1);
      assert LeBytes(x, n)[1..] == LeBytes(x / 256, n - 1);
    }
  }

  lemma {:induction false} LeValueBound(s: seq<byte>)
    ensures LeValue(s) < Pow256(|s|)
  {
    if s == [] {
    } else {
      LeValueBound(s[1..]);
    }
  }

  /** Appends the n-byte little-endian form of x one byte at a time. */
  method LeWrite(v: seq<byte>, x: nat, n: nat) returns (out: seq<byte>)
    ensures out == v + LeBytes(x, n)
  {
    out := v;
    var rest := x;
    for i := 0 to n
      invariant out + LeBytes(rest, n - i) == v + LeBytes(x, n)
    {
      assert LeBytes(rest, n - i) == [rest % 256] + LeBytes(rest / 256, n - i - 1);
      assert out + LeBytes(rest, n - i) == (out + [rest % 256]) + LeBytes(rest / 256, n - i - 1);
      out := out + [rest % 256];
      rest := rest / 256;
    }
  }

  const FNV_BASIS: nat := 2166136261
  const FNV_PRIME: nat := 16777619
  const TWO_32: nat := 0x1_0000_0000

  /** One FNV-1a round: fold a byte into the hash, wrapping at 32 bits. */
  function FnvRound(h: nat, b: byte): nat {
    Xor(h, b) * FNV_PRIME % TWO_32
  }

  /** FNV-1a over a byte string, last byte outermost. */
  function Fnv1a(data: seq<byte>): nat {
    if data == [] then FNV_BASIS else FnvRound(Fnv1a(data[..|data| - 1]), data[|data| - 1])
  }

  lemma FnvIsWord(data: seq<byte>)
    ensures Fnv1a(data) < TWO_32
  {
    if data != [] {
      assert Fnv1a(data) == FnvRound(Fnv1a(data[..|data| - 1]), data[|data| - 1]);
    }
  }

  // ---------------------------------------------------------------- one byte off

  lemma {:induction false} XorUndo(a: nat, b: nat)
    ensures Xor(Xor(a, b), b) == a
    decreases a + b
  {
    if a != 0 || b != 0 {
      var x, y := Xor(a, b), Xor(a / 2, b / 2);
      XorUndo(a / 2, b / 2);
      XorStep(a, b, x, y);
      if x != 0 || b != 0 {
        XorStep(x, b, Xor(x, b), a / 2);
        FromHalf(Xor(x, b));
      }
      FromHalf(a);
    }
  }

  lemma FromHalf(a: nat)
    ensures a == a % 2 + 2 * (a / 2)
  {}

  lemma XorStep(a: nat, b: nat, x: nat, y: nat)
    requires (a != 0 || b != 0) && x == Xor(a, b) && y == Xor(a / 2, b / 2)
    ensures x / 2 == y && x % 2 == XorBit(a, b)
  {
    Halves(x, XorBit(a, b), y);
  }

  lemma Halves(x: nat, bit: nat, y: nat)
    requires x == bit + 2 * y && bit < 2
    ensures x / 2 == y && x % 2 == bit
  {}

  function Pow2(n: nat): (p: nat)
    ensures p > 0
  {
    if n == 0 then 1 else 2 * Pow2(n - 1)
  }

  lemma {:induction false} XorBound(a: nat, b: nat, n: nat)
    requires a < Pow2(n) && b < Pow2(n)
    ensures Xor(a, b) < Pow2(n)
  {
    if n > 0 && (a != 0 || b != 0) { XorBound(a / 2, b / 2, n - 1); }
  }

  lemma Word32()
    ensures Pow2(32) == TWO_32
  {
    assert Pow2(8) == 256;
    assert Pow2(16) == 256 * Pow2(8);
    assert Pow2(24) == 256 * Pow2(16);
  }

  /** The prime is odd, so multiplying by it loses nothing. */
  lemma PrimeUndo(x: nat)
    requires x < TWO_32
    ensures x * FNV_PRIME % TWO_32 * 899433627 % TWO_32 == x
  {
    var y := x * FNV_PRIME;
    var q, r := y / TWO_32, y % TWO_32;
    assert FNV_PRIME * 899433627 == 3513497 * TWO_32 + 1;
    assert r * 899433627 == y * 899433627 - q * 899433627 * TWO_32;
    assert r * 899433627 == x + (x * 3513497 - q * 899433627) * TWO_32;
  }

  /** Different hashes stay different, and different bytes make them different. */
  lemma RoundApart(h: nat, b: byte, k: nat, c: byte)
    requires h < TWO_32 && k < TWO_32 && (b == c <==> h != k)
    ensures FnvRound(h, b) != FnvRound(k, c)
  {
    Word32();
    assert Pow2(8) == 256 && 256 < Pow2(32);
    XorBound(h, b, 32);
    XorBound(k, c, 32);
    PrimeUndo(Xor(h, b));
    PrimeUndo(Xor(k, c));
    if Xor(h, b) == Xor(k, c) {
      XorUndo(h, b);
      XorUndo(k, c);
      XorSymmetric(h, b);
      XorSymmetric(k, c);
      XorUndo(b, h);
      XorUndo(c, k);
    }
  }

  /** FNV-1a notices every single byte that is off. */
  lemma {:induction false} OneByteOff(data: seq<byte>, i: nat, b: byte)
    requires i < |data| && b != data[i]
    ensures Fnv1a(data[i := b]) != Fnv1a(data)
  {
    var n := |data| - 1;
    var other := data[i := b];
    FnvIsWord(data[..n]);
    FnvIsWord(other[..n]);
    if i < n {
      OneByteOff(data[..n], i, b);
      assert other[..n] == data[..n][i := b];
    } else {
      assert other[..n] == data[..n];
    }
    RoundApart(Fnv1a(other[..n]), other[n], Fnv1a(data[..n]), data[n]);
  }

  lemma {:induction false} LeValueApart(s: seq<byte>, i: nat, b: byte)
    requires i < |s| && b != s[i]
    ensures LeValue(s[i := b]) != LeValue(s)
  {
    if i == 0 {
      assert s[i := b][1..] == s[1..];
    } else {
      assert s[i := b][1..] == s[1..][i - 1 := b];
      LeValueApart(s[1..], i - 1, b);
    }
  }

  method Fnv1a32(data: seq<byte>) returns (h: nat)
    ensures h == Fnv1a(data)
    ensures h < TWO_32
  {
    h := FNV_BASIS;
    for i := 0 to |data|
      invariant h == Fnv1a(data[..i])
    {
      assert data[..i + 1][..i] == data[..i];
      h := FnvRound(h, data[i]);
    }
    assert data[..|data|] == data;
    FnvIsWord(data);
  }
}

/** Bit strings, most significant bit first: the alphabet of the derived wire codec. */
module Bits {

  type u8 = x: nat | x < 0x100
  type u32 = x: nat | x < 0x1_0000_0000

  function Pow2(n: nat): (p: nat)
    ensures p >= 1
  {
    if n == 0 then 1 else 2 * Pow2(n - 1)
  }

  /** The `n` low bits of `v`, as deku writes an integer field: higher bits are silently cut off. */
  function ToBits(v: nat, n: nat): (b: seq<bool>)
    ensures |b| == n
    decreases n, v
  {
    if n == 0 then [] else ToBits(v / 2, n - 1) + [v % 2 == 1]
  }

  function FromBits(b: seq<bool>): nat
  {
    if b == [] then 0 else 2 * FromBits(b[..|b| - 1]) + (if b[|b| - 1] then 1 else 0)
  }

  /** The bits of a byte string, eight to a byte. */
  function Unpack(s: seq<u8>): (b: seq<bool>)
    ensures |b| == 8 * |s|
  {
    if s == [] then [] else ToBits(s[0], 8) + Unpack(s[1..])
  }

  function Pack(b: seq<bool>): (s: seq<u8>)
    requires |b| % 8 == 0
    ensures 8 * |s| == |b|
  {
    if b == [] then [] else
      FromBitsBound(b[..8]);
      assert Pow2(8) == 0x100;
      [FromBits(b[..8])] + Pack(b[8..])
  }

  function Concat(chunks: seq<seq<u8>>): seq<u8> {
    if chunks == [] then [] else Concat(chunks[..|chunks| - 1]) + chunks[|chunks| - 1]
  }

  /** Bitwise conjunction of two `n`-bit words. */
  function BitAnd(a: nat, b: nat, n: nat): nat
  {
    if n == 0 then 0 else 2 * BitAnd(a / 2, b / 2, n - 1) + (if a % 2 == 1 && b % 2 == 1 then 1 else 0)
  }

  lemma {:induction false} FromBitsBound(b: seq<bool>)
    ensures FromBits(b) < Pow2(|b|)
  {
    if b != [] {
      FromBitsBound(b[..|b| - 1]);
    }
  }

  lemma {:induction false} ModDouble(v: nat, p: nat)
    requires p >= 1
    ensures v % (2 * p) == 2 * ((v / 2) % p) + v % 2
  {
    var q, r := (v / 2) / p, (v / 2) % p;
    assert v == q * (2 * p) + (2 * r + v % 2);
    ModUnique(v, 2 * p, q, 2 * r + v % 2);
  }

  lemma {:induction false} ModUnique(v: nat, m: nat, q: nat, r: nat)
    requires m >= 1 && v == q * m + r && r < m
    ensures v % m == r
  {
    var q' := v / m;
    assert v == q' * m + v % m;
    Multiples(q', q, m, v % m, r);
    Multiples(q, q', m, r, v % m);
  }

  lemma {:induction false} Multiples(a: nat, b: nat, m: nat, x: nat, y: nat)
    requires a * m + x == b * m + y && x < m
    ensures a >= b
  {
    MulStep(a, b, m);
  }

  lemma {:induction false} MulStep(a: nat, b: nat, m: nat)
    ensures a < b ==> a * m + m <= b * m
  {
    if a < b {
      var d: nat := b - a - 1;
      assert (a + 1 + d) * m == a * m + m + d * m;
    }
  }

  /** Writing keeps a value modulo the field width. */
  lemma {:induction false} FromToBits(v: nat, n: nat)
    ensures FromBits(ToBits(v, n)) == v % Pow2(n)
  {
    if n != 0 {
      var b := ToBits(v, n);
      assert b[..n - 1] == ToBits(v / 2, n - 1);
      FromToBits(v / 2, n - 1);
      ModDouble(v, Pow2(n - 1));
    }
  }

  /** A field that was read is written back bit for bit. */
  lemma {:induction false} ToFromBits(b: seq<bool>)
    ensures ToBits(FromBits(b), |b|) == b
  {
    if b != [] {
      ToFromBits(b[..|b| - 1]);
      assert b == b[..|b| - 1] + [b[|b| - 1]];
    }
  }

  lemma {:induction false} ByteRoundTrip(v: u8)
    ensures FromBits(ToBits(v, 8)) == v
  {
    hide ToBits, FromBits;
    FromToBits(v, 8);
    assert Pow2(8) == 0x100;
  }

  lemma {:induction false} PackUnpack(s: seq<u8>)
    ensures Pack(Unpack(s)) == s
  {
    if s != [] {
      var b := Unpack(s);
      assert b[..8] == ToBits(s[0], 8) && b[8..] == Unpack(s[1..]);
      ByteRoundTrip(s[0]);
      PackUnpack(s[1..]);
      assert Pack(b) == [FromBits(b[..8])] + Pack(b[8..]);
    }
  }

  lemma {:induction false} UnpackPack(b: seq<bool>)
    requires |b| % 8 == 0
    ensures Unpack(Pack(b)) == b
  {
    if b != [] {
      ToFromBits(b[..8]);
      UnpackPack(b[8..]);
      assert Pack(b)[1..] == Pack(b[8..]);
      assert b == b[..8] + b[8..];
    }
  }

  lemma {:induction false} UnpackConcat(s: seq<u8>, t: seq<u8>)
    ensures Unpack(s + t) == Unpack(s) + Unpack(t)
  {
    if s == [] {
      assert s + t == t;
    } else {
      UnpackConcat(s[1..], t);
      assert (s + t)[1..] == s[1..] + t && (s + t)[0] == s[0];
      assert Unpack(s + t) == ToBits(s[0], 8) + (Unpack(s[1..]) + Unpack(t));
    }
  }

  lemma {:induction false} UnpackDrop(s: seq<u8>, k: nat)
    requires k <= |s|
    ensures Unpack(s)[8 * k..] == Unpack(s[k..])
    ensures Unpack(s)[..8 * k] == Unpack(s[..k])
  {
    hide Unpack;
    UnpackConcat(s[..k], s[k..]);
    assert s == s[..k] + s[k..];
  }

  lemma {:induction false} UnpackInjective(s: seq<u8>, t: seq<u8>)
    requires Unpack(s) == Unpack(t)
    ensures s == t
  {
    PackUnpack(s);
    PackUnpack(t);
  }

  lemma {:induction false} AndLowMask(a: nat, k: nat, n: nat)
    requires k <= n
    ensures BitAnd(a, Pow2(k) - 1, n) == a % Pow2(k)
  {
    if k == 0 {
      AndZero(a, n);
    } else {
      var p := Pow2(k - 1);
      AndLowMask(a / 2, k - 1, n - 1);
      var m: nat := Pow2(k) - 1;
      assert m == 2 * (p - 1) + 1 && m / 2 == p - 1 && m % 2 == 1;
      assert BitAnd(a, m, n) == 2 * BitAnd(a / 2, p - 1, n - 1) + a % 2;
      ModDouble(a, p);
    }
  }

  lemma {:induction false} AndZero(a: nat, n: nat)
    ensures BitAnd(a, 0, n) == 0
  {
    if n != 0 {
      AndZero(a / 2, n - 1);
    }
  }
}

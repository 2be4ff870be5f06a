/** Bytes and the integer encodings of Bitcoin's wire format. */
module Bytes {
  import opened Arithmetic

  type Byte = n: nat | n < 256

  type Digest = s: seq<Byte> | |s| == 32 witness seq(32, i => 0)

  const TWO_32: nat := 0x1_0000_0000
  const TWO_63: nat := 0x8000_0000_0000_0000
  const TWO_64: nat := 0x1_0000_0000_0000_0000

  ghost function Pow256(k: nat): (p: nat)
    ensures p >= 1
  {
    if k == 0 then 1 else 256 * Pow256(k - 1)
  }

  lemma Pow256Values()
    ensures Pow256(1) == 256 && Pow256(2) == 0x1_0000 && Pow256(4) == TWO_32 && Pow256(8) == TWO_64
  {
    assert Pow256(3) == 0x100_0000;
    assert Pow256(5) == 0x100_0000_0000 && Pow256(6) == 0x1_0000_0000_0000 && Pow256(7) == 0x100_0000_0000_0000;
  }

  /** The k lowest bytes of a number, least significant first. */
  function LittleEndian(n: nat, k: nat): (b: seq<Byte>)
    ensures |b| == k
  {
    if k == 0 then [] else [n % 256] + LittleEndian(n / 256, k - 1)
  }

  /** The i-th lowest byte of a number. */
  ghost function ByteAt(n: nat, i: nat): Byte {
    n / Pow256(i) % 256
  }

  lemma NextByte(n: nat, i: nat)
    ensures ByteAt(n / 256, i) == ByteAt(n, i + 1)
  {
    var p := Pow256(i);
    var q, r := n / 256, n % 256;
    assert q == p * (q / p) + q % p && n == 256 * q + r;
    assert n == 256 * p * (q / p) + (256 * (q % p) + r) by {
      assert 256 * (p * (q / p)) == 256 * p * (q / p);
    }
    SplitOff(n, 256 * p, q / p, 256 * (q % p) + r);
  }

  /** The i-th byte of a little-endian number is its i-th lowest one. */
  lemma {:induction false} LittleEndianAt(n: nat, k: nat, i: nat)
    requires i < k
    ensures LittleEndian(n, k)[i] == ByteAt(n, i)
    decreases k
  {
    if i == 0 {
      assert ByteAt(n, 0) == n / 1 % 256 == n % 256;
    } else {
      LittleEndianAt(n / 256, k - 1, i - 1);
      NextByte(n, i - 1);
    }
  }

  /** The bytes from `from` on are those of the number, lowest first. */
  ghost predicate Holds(b: seq<Byte>, from: nat, k: nat, n: nat) {
    from + k <= |b| && forall i :: 0 <= i < k ==> b[from + i] == ByteAt(n, i)
  }

  lemma LittleEndianHolds(before: seq<Byte>, n: nat, k: nat, after: seq<Byte>)
    ensures Holds(before + LittleEndian(n, k) + after, |before|, k, n)
  {
    var all := before + LittleEndian(n, k) + after;
    forall i | 0 <= i < k ensures all[|before| + i] == ByteAt(n, i) {
      LittleEndianAt(n, k, i);
    }
  }

  lemma {:induction false} LittleEndianInjective(n: nat, m: nat, k: nat)
    requires n < Pow256(k) && m < Pow256(k)
    requires LittleEndian(n, k) == LittleEndian(m, k)
    ensures n == m
  {
    if k > 0 {
      var a, b := LittleEndian(n, k), LittleEndian(m, k);
      assert a[0] == n % 256 && b[0] == m % 256;
      assert a[1..] == LittleEndian(n / 256, k - 1) && b[1..] == LittleEndian(m / 256, k - 1);
      LittleEndianInjective(n / 256, m / 256, k - 1);
    }
  }

  /** The variable-length integer that precedes a script. */
  function VarInt(n: nat): seq<Byte> {
    if n < 0xFD then [n]
    else if n <= 0xFFFF then [0xFD] + LittleEndian(n, 2)
    else if n <= 0xFFFF_FFFF then [0xFE] + LittleEndian(n, 4)
    else [0xFF] + LittleEndian(n, 8)
  }

  /** A variable-length integer is one byte, or a mark and two, four or eight bytes. */
  lemma VarIntLayout(n: nat)
    requires n < TWO_64
    ensures n < 253 ==> VarInt(n) == [n]
    ensures 253 <= n < 0x1_0000 ==> |VarInt(n)| == 3 && VarInt(n)[0] == 0xFD && Holds(VarInt(n), 1, 2, n)
    ensures 0x1_0000 <= n < TWO_32 ==> |VarInt(n)| == 5 && VarInt(n)[0] == 0xFE && Holds(VarInt(n), 1, 4, n)
    ensures TWO_32 <= n ==> |VarInt(n)| == 9 && VarInt(n)[0] == 0xFF && Holds(VarInt(n), 1, 8, n)
  {
    if n >= 253 {
      var k := if n < 0x1_0000 then 2 else if n < TWO_32 then 4 else 8;
      LittleEndianHolds(VarInt(n)[..1], n, k, []);
      assert VarInt(n)[..1] + LittleEndian(n, k) + [] == VarInt(n);
    }
  }

  /** Two encodings of the same width split off the same way. */
  lemma SplitSame<T>(a: seq<T>, r: seq<T>, b: seq<T>, s: seq<T>)
    requires |a| == |b| && a + r == b + s
    ensures a == b && r == s
  {
    assert (a + r)[..|a|] == a && (b + s)[..|b|] == b;
    assert (a + r)[|a|..] == r && (b + s)[|b|..] == s;
  }

  lemma FixedPrefix(n: nat, r: seq<Byte>, m: nat, s: seq<Byte>, k: nat)
    requires n < Pow256(k) && m < Pow256(k)
    requires LittleEndian(n, k) + r == LittleEndian(m, k) + s
    ensures n == m && r == s
  {
    SplitSame(LittleEndian(n, k), r, LittleEndian(m, k), s);
    LittleEndianInjective(n, m, k);
  }

  /** The width that follows the first byte of a variable-length integer. */
  function VarIntWidth(first: Byte): nat {
    if first < 0xFD then 0 else if first == 0xFD then 2 else if first == 0xFE then 4 else 8
  }

  lemma VarIntShape(n: nat)
    requires n < TWO_64
    ensures |VarInt(n)| == 1 + VarIntWidth(VarInt(n)[0])
    ensures n >= 0xFD ==> VarInt(n)[1..] == LittleEndian(n, VarIntWidth(VarInt(n)[0]))
    ensures n >= 0xFD ==> n < Pow256(VarIntWidth(VarInt(n)[0]))
  {
    Pow256Values();
  }

  /** No variable-length integer is a prefix of another. */
  lemma VarIntPrefix(n: nat, r: seq<Byte>, m: nat, s: seq<Byte>)
    requires n < TWO_64 && m < TWO_64
    requires VarInt(n) + r == VarInt(m) + s
    ensures n == m && r == s
  {
    var a, b := VarInt(n), VarInt(m);
    VarIntShape(n);
    VarIntShape(m);
    assert (a + r)[0] == a[0] && (b + s)[0] == b[0];
    SplitSame(a, r, b, s);
    if n >= 0xFD {
      LittleEndianInjective(n, m, VarIntWidth(a[0]));
    }
  }
}

/** The derivation path that an emulator's key takes for a template hash. */
module ChildPaths {
  import opened Arithmetic
  import opened Bytes

  const TWO_31: nat := 0x8000_0000

  /** A step of a derivation path; the top bit of a u32 marks hardened ones. */
  datatype ChildNumber = Normal(index: nat) | Hardened(index: nat)

  function FromU32(n: nat): ChildNumber {
    if n < TWO_31 then Normal(n) else Hardened(n - TWO_31)
  }

  /** Shifts of a u32: bits shifted out at the top are lost. */
  function Shl(x: nat, k: nat): nat {
    x * Pow2(k) % TWO_32
  }

  function Shr(x: nat, k: nat): nat {
    Quotient(x, Pow2(k))
  }

  function WordOf(b: seq<Byte>): nat
    requires |b| == 4
  {
    0x100_0000 * (b[0] as nat) + 0x1_0000 * (b[1] as nat) + 256 * (b[2] as nat) + b[3] as nat
  }

  /** The hash as u32 words, most significant byte first. */
  function Words(b: seq<Byte>): (w: seq<nat>)
    requires |b| % 4 == 0
    ensures |w| == |b| / 4 && forall i :: 0 <= i < |w| ==> w[i] < TWO_32
  {
    if b == [] then [] else [WordOf(b[..4])] + Words(b[4..])
  }

  /** Each word without its top bit. */
  function MaskedWords(w: seq<nat>): (c: seq<ChildNumber>)
    ensures |c| == |w|
  {
    if w == [] then [] else [FromU32(Shr(Shl(w[0], 1), 1))] + MaskedWords(w[1..])
  }

  /** The top bits of all words, the i-th at position i. */
  function TopBits(w: seq<nat>, i: nat): nat {
    if w == [] then 0 else Shl(Shr(w[0], 31), i) + TopBits(w[1..], i + 1)
  }

  function HashToChildVec(h: Digest): seq<ChildNumber> {
    var b := Words(h);
    MaskedWords(b) + [FromU32(TopBits(b, 0))]
  }

  // ------------------------------------------------------------------ decoding

  /** Words back from their lower bits and the packed top bits. */
  function Unmask(c: seq<ChildNumber>, top: nat): (w: seq<nat>)
    ensures |w| == |c|
  {
    if c == [] then [] else [c[0].index + TWO_31 * (top % 2)] + Unmask(c[1..], top / 2)
  }

  function BytesOfWord(w: nat): (b: seq<Byte>)
    ensures |b| == 4
  {
    [w / 0x100_0000 % 256, w / 0x1_0000 % 256, w / 256 % 256, w % 256]
  }

  function BytesOf(w: seq<nat>): (b: seq<Byte>)
    ensures |b| == 4 * |w|
  {
    if w == [] then [] else BytesOfWord(w[0]) + BytesOf(w[1..])
  }

  function Decode(c: seq<ChildNumber>): seq<Byte>
    requires |c| == 9
  {
    BytesOf(Unmask(c[..8], c[8].index))
  }

  lemma Pow2Of31()
    ensures Pow2(31) == TWO_31
  {
    assert Pow2(10) == 1024;
    assert Pow2(20) == 0x10_0000;
    assert Pow2(30) == 0x4000_0000;
  }

  lemma MaskDropsTopBit(x: nat)
    requires x < TWO_32
    ensures Shr(Shl(x, 1), 1) == x % TWO_31
    ensures Shr(x, 31) == x / TWO_31 <= 1
    ensures x == x % TWO_31 + TWO_31 * (x / TWO_31)
  {
    Pow2Of31();
    assert Pow2(1) == 2;
    if x < TWO_31 {
      assert x * 2 % TWO_32 == 2 * x;
    } else {
      assert x * 2 % TWO_32 == 2 * (x - TWO_31);
    }
  }

  /** The top bit of each word, the first word's lowest. */
  function PackedBits(w: seq<nat>): nat {
    if w == [] then 0 else w[0] / TWO_31 + 2 * PackedBits(w[1..])
  }

  lemma {:induction false} PackedBitsBound(w: seq<nat>)
    requires forall i :: 0 <= i < |w| ==> w[i] < TWO_32
    ensures PackedBits(w) < Pow2(|w|)
  {
    if w != [] {
      PackedBitsBound(w[1..]);
    }
  }

  lemma ShiftedBit(bit: nat, i: nat)
    requires bit <= 1 && i <= 8
    ensures Shl(bit, i) == Pow2(i) * bit
  {
    Pow2Grows(i, 8);
    assert Pow2(8) == 256;
    assert bit == 0 || bit == 1;
  }

  lemma PackStep(i: nat, bit: nat, rest: nat)
    ensures Pow2(i) * bit + Pow2(i + 1) * rest == Pow2(i) * (bit + 2 * rest)
  {
    var p := Pow2(i);
    assert 2 * p * rest == p * (2 * rest);
    assert p * (bit + 2 * rest) == p * bit + p * (2 * rest);
  }

  lemma {:induction false} TopBitsPacked(w: seq<nat>, i: nat)
    requires forall j :: 0 <= j < |w| ==> w[j] < TWO_32
    requires i + |w| <= 8
    ensures TopBits(w, i) == Pow2(i) * PackedBits(w)
    decreases |w|
  {
    if w != [] {
      MaskDropsTopBit(w[0]);
      TopBitsPacked(w[1..], i + 1);
      ShiftedBit(w[0] / TWO_31, i);
      PackStep(i, w[0] / TWO_31, PackedBits(w[1..]));
    }
  }

  /** The top bits of eight words fill one byte. */
  lemma TopBitsFillByte(w: seq<nat>)
    requires |w| == 8 && forall j :: 0 <= j < |w| ==> w[j] < TWO_32
    ensures TopBits(w, 0) == PackedBits(w) < 256
  {
    PackedBitsBound(w);
    TopBitsPacked(w, 0);
    assert Pow2(8) == 256 && Pow2(0) == 1;
  }

  lemma PackedSplit(w: seq<nat>)
    requires w != [] && w[0] < TWO_32
    ensures PackedBits(w) % 2 == w[0] / TWO_31 && PackedBits(w) / 2 == PackedBits(w[1..])
  {
    assert w[0] / TWO_31 == 0 || w[0] / TWO_31 == 1;
  }

  lemma MaskedIsNormal(x: nat)
    requires x < TWO_32
    ensures FromU32(Shr(Shl(x, 1), 1)) == Normal(x % TWO_31)
  {
    MaskDropsTopBit(x);
  }

  lemma UnmaskCons(first: ChildNumber, rest: seq<ChildNumber>, top: nat)
    ensures Unmask([first] + rest, top) == [first.index + TWO_31 * (top % 2)] + Unmask(rest, top / 2)
  {
    assert ([first] + rest)[1..] == rest;
  }

  lemma {:induction false} UnmaskMasked(w: seq<nat>)
    requires forall i :: 0 <= i < |w| ==> w[i] < TWO_32
    ensures Unmask(MaskedWords(w), PackedBits(w)) == w
    ensures forall i :: 0 <= i < |w| ==> MaskedWords(w)[i].Normal? && MaskedWords(w)[i].index < TWO_31
  {
    if w != [] {
      var first, rest := Normal(w[0] % TWO_31), MaskedWords(w[1..]);
      MaskedIsNormal(w[0]);
      PackedSplit(w);
      UnmaskMasked(w[1..]);
      assert MaskedWords(w) == [first] + rest;
      UnmaskCons(first, rest, PackedBits(w));
      assert w[0] % TWO_31 + TWO_31 * (w[0] / TWO_31) == w[0];
      assert w == [w[0]] + w[1..];
    }
  }

  lemma WordDivided(b: seq<Byte>)
    requires |b| == 4
    ensures WordOf(b) / 256 == 0x1_0000 * (b[0] as nat) + 256 * (b[1] as nat) + b[2] as nat
    ensures WordOf(b) / 0x1_0000 == 256 * (b[0] as nat) + b[1] as nat
    ensures WordOf(b) / 0x100_0000 == b[0] as nat
  {
    var w := WordOf(b);
    SplitOff(w, 256, 0x1_0000 * (b[0] as nat) + 256 * (b[1] as nat) + b[2] as nat, b[3] as nat);
    SplitOff(w, 0x1_0000, 256 * (b[0] as nat) + b[1] as nat, 256 * (b[2] as nat) + b[3] as nat);
    SplitOff(w, 0x100_0000, b[0] as nat, 0x1_0000 * (b[1] as nat) + 256 * (b[2] as nat) + b[3] as nat);
  }

  lemma BytesOfWordOf(b: seq<Byte>)
    requires |b| == 4
    ensures BytesOfWord(WordOf(b)) == b
  {
    WordDivided(b);
  }

  lemma {:induction false} BytesOfWords(b: seq<Byte>)
    requires |b| % 4 == 0
    ensures BytesOf(Words(b)) == b
  {
    if b != [] {
      BytesOfWordOf(b[..4]);
      BytesOfWords(b[4..]);
      assert Words(b)[1..] == Words(b[4..]);
      assert b == b[..4] + b[4..];
    }
  }

  /**
   * The child path is faithful: nine unhardened steps, the ninth below 2^8,
   * from which all of the hash can be read back.
   */
  lemma ChildPathIsFaithful(h: Digest)
    ensures var c := HashToChildVec(h);
            && |c| == 9
            && (forall i :: 0 <= i < 9 ==> c[i].Normal? && c[i].index < TWO_31)
            && c[8].index < 256
            && Decode(c) == h
  {
    var w := Words(h);
    UnmaskMasked(w);
    TopBitsFillByte(w);
    BytesOfWords(h);
    var c := HashToChildVec(h);
    assert c[..8] == MaskedWords(w) && c[8] == Normal(PackedBits(w));
  }

  /** Different hashes take different paths. */
  lemma ChildPathsDiffer(h: Digest, g: Digest)
    requires HashToChildVec(h) == HashToChildVec(g)
    ensures h == g
  {
    ChildPathIsFaithful(h);
    ChildPathIsFaithful(g);
  }
}

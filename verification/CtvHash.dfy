/**
 * The template hash of BIP-119 ("Detailed Specification") as the program
 * computes it, and what an equality of two such hashes implies.
 */
module CtvHash {
  import opened Sequences
  import opened Bytes
  import opened Templates

  type Sha256 = seq<Byte> -> Digest

  /** The ranges of the program's integer types. */
  ghost predicate InRange(tx: Transaction) {
    && -0x8000_0000 <= tx.version < 0x8000_0000
    && tx.lockTime < TWO_32
    && (forall i :: 0 <= i < |tx.input| ==> tx.input[i].sequence < TWO_32)
    && (forall i :: 0 <= i < |tx.output| ==> OutputInRange(tx.output[i]))
  }

  ghost predicate OutputInRange(o: TxOut) {
    o.value < TWO_64 && |o.script| < TWO_64
  }

  // -------------------------------------------------------------- the preimage

  function SequenceNumbers(input: seq<TxIn>): seq<nat> {
    if input == [] then [] else [input[0].sequence] + SequenceNumbers(input[1..])
  }

  function SequenceBytes(input: seq<TxIn>): seq<Byte> {
    if input == [] then [] else LittleEndian(input[0].sequence, 4) + SequenceBytes(input[1..])
  }

  function OutputEncoding(o: TxOut): seq<Byte> {
    LittleEndian(o.value, 8) + VarInt(|o.script|) + o.script
  }

  function OutputBytes(output: seq<TxOut>): seq<Byte> {
    if output == [] then [] else OutputEncoding(output[0]) + OutputBytes(output[1..])
  }

  function Header(tx: Transaction): seq<Byte> {
    LittleEndian(tx.version % TWO_32, 4) + LittleEndian(tx.lockTime, 4) + LittleEndian(|tx.input| % TWO_32, 4)
  }

  function Preimage(tx: Transaction, index: nat, sha: Sha256): seq<Byte> {
    Header(tx) + sha(SequenceBytes(tx.input)) + LittleEndian(|tx.output| % TWO_32, 4)
    + sha(OutputBytes(tx.output)) + LittleEndian(index, 4)
  }

  function TemplateHash(tx: Transaction, index: nat, sha: Sha256): Digest {
    sha(Preimage(tx, index, sha))
  }

  /** A hash engine that is fed bytes until it is asked for the digest. */
  class HashEngine {
    var data: seq<Byte>

    constructor ()
      ensures data == []
    {
      data := [];
    }

    method Input(bytes: seq<Byte>)
      modifies this
      ensures data == old(data) + bytes
    {
      data := data + bytes;
    }
  }

  method HashSequences(input: seq<TxIn>, sha: Sha256) returns (d: Digest)
    ensures d == sha(SequenceBytes(input))
  {
    var enc := new HashEngine();
    for i := 0 to |input|
      invariant enc.data + SequenceBytes(input[i..]) == SequenceBytes(input)
    {
      assert input[i..][1..] == input[i + 1..];
      enc.Input(LittleEndian(input[i].sequence, 4));
    }
    assert input[|input|..] == [] && enc.data + [] == enc.data;
    d := sha(enc.data);
  }

  method InputOutput(enc: HashEngine, o: TxOut)
    modifies enc
    ensures enc.data == old(enc.data) + OutputEncoding(o)
  {
    enc.Input(LittleEndian(o.value, 8));
    enc.Input(VarInt(|o.script|));
    enc.Input(o.script);
    FourParts(old(enc.data), LittleEndian(o.value, 8), VarInt(|o.script|), o.script);
  }

  method HashOutputs(output: seq<TxOut>, sha: Sha256) returns (d: Digest)
    ensures d == sha(OutputBytes(output))
  {
    var enc := new HashEngine();
    for i := 0 to |output|
      invariant enc.data + OutputBytes(output[i..]) == OutputBytes(output)
    {
      assert output[i..][1..] == output[i + 1..];
      ghost var before := enc.data;
      InputOutput(enc, output[i]);
      ConcatAssociative(before, OutputEncoding(output[i]), OutputBytes(output[i + 1..]));
    }
    assert output[|output|..] == [] && enc.data + [] == enc.data;
    d := sha(enc.data);
  }

  /** Feeds a transaction to the hash engine, field by field. */
  method GetCtvHash(tx: Transaction, index: nat, sha: Sha256) returns (h: Digest)
    ensures h == TemplateHash(tx, index, sha)
  {
    var engine := new HashEngine();
    engine.Input(LittleEndian(tx.version % TWO_32, 4));
    engine.Input(LittleEndian(tx.lockTime, 4));
    engine.Input(LittleEndian(|tx.input| % TWO_32, 4));
    assert engine.data == Header(tx);
    var sequences := HashSequences(tx.input, sha);
    engine.Input(sequences);
    engine.Input(LittleEndian(|tx.output| % TWO_32, 4));
    var outputs := HashOutputs(tx.output, sha);
    engine.Input(outputs);
    engine.Input(LittleEndian(index, 4));
    h := sha(engine.data);
  }

  // ------------------------------------------------------------------- layout

  lemma VersionWord(version: int)
    requires -0x8000_0000 <= version < 0x8000_0000
    ensures version % TWO_32 == if version >= 0 then version else version + TWO_32
  {
  }

  /**
   * The preimage byte by byte: version as two's complement, lock time, number
   * of inputs, hash of the sequences, number of outputs, hash of the outputs
   * and index, with the lowest byte of every number first.
   */
  lemma PreimageLayout(tx: Transaction, index: nat, sha: Sha256)
    requires -0x8000_0000 <= tx.version < 0x8000_0000
    ensures var p := Preimage(tx, index, sha);
            && |p| == 84
            && Holds(p, 0, 4, if tx.version >= 0 then tx.version else tx.version + TWO_32)
            && Holds(p, 4, 4, tx.lockTime)
            && Holds(p, 8, 4, |tx.input| % TWO_32)
            && p[12..44] == sha(SequenceBytes(tx.input))
            && Holds(p, 44, 4, |tx.output| % TWO_32)
            && p[48..80] == sha(OutputBytes(tx.output))
            && Holds(p, 80, 4, index)
  {
    var p := Preimage(tx, index, sha);
    VersionWord(tx.version);
    WordAt(p, [], tx.version % TWO_32, p[4..]);
    WordAt(p, p[..4], tx.lockTime, p[8..]);
    WordAt(p, p[..8], |tx.input| % TWO_32, p[12..]);
    WordAt(p, p[..44], |tx.output| % TWO_32, p[48..]);
    WordAt(p, p[..80], index, []);
  }

  lemma WordAt(p: seq<Byte>, before: seq<Byte>, n: nat, after: seq<Byte>)
    requires p == before + LittleEndian(n, 4) + after
    ensures Holds(p, |before|, 4, n)
  {
    LittleEndianHolds(before, n, 4, after);
  }

  /** The sequence numbers as hashed: four bytes each, in the order of the inputs. */
  lemma {:induction false} SequenceLayout(input: seq<TxIn>, i: nat)
    requires i < |input|
    ensures |SequenceBytes(input)| == 4 * |input|
    ensures Holds(SequenceBytes(input), 4 * i, 4, input[i].sequence)
  {
    var first, rest := LittleEndian(input[0].sequence, 4), SequenceBytes(input[1..]);
    SequenceLength(input[1..]);
    if i == 0 {
      LittleEndianHolds([], input[0].sequence, 4, rest);
      assert [] + first + rest == SequenceBytes(input);
    } else {
      SequenceLayout(input[1..], i - 1);
      forall j | 0 <= j < 4 ensures SequenceBytes(input)[4 * i + j] == ByteAt(input[i].sequence, j) {
        assert (first + rest)[4 * i + j] == rest[4 * (i - 1) + j];
      }
    }
  }

  lemma {:induction false} SequenceLength(input: seq<TxIn>)
    ensures |SequenceBytes(input)| == 4 * |input|
  {
    if input != [] {
      SequenceLength(input[1..]);
    }
  }

  /** An output as hashed: eight bytes of value, the length of the script, the script. */
  lemma OutputLayout(o: TxOut)
    ensures var b, v := OutputEncoding(o), VarInt(|o.script|);
            && |b| == 8 + |v| + |o.script|
            && Holds(b, 0, 8, o.value) && b[8..8 + |v|] == v && b[8 + |v|..] == o.script
  {
    var v := VarInt(|o.script|);
    LittleEndianHolds([], o.value, 8, v + o.script);
    assert [] + LittleEndian(o.value, 8) + (v + o.script) == OutputEncoding(o);
  }

  /** The outputs as hashed come one after the other, in order. */
  lemma {:induction false} OutputsLayout(output: seq<TxOut>, i: nat)
    requires i < |output|
    ensures OutputBytes(output)
         == OutputBytes(output[..i]) + OutputEncoding(output[i]) + OutputBytes(output[i + 1..])
  {
    if i == 0 {
      assert OutputBytes(output[..0]) == [];
    } else {
      OutputsLayout(output[1..], i - 1);
      assert output[..i][1..] == output[1..][..i - 1] && output[1..][i..] == output[i + 1..];
      var first, before := OutputEncoding(output[0]), OutputBytes(output[1..][..i - 1]);
      FourParts(first, before, OutputEncoding(output[i]), OutputBytes(output[i + 1..]));
    }
  }

  // -------------------------------------------------------------- injectivity

  lemma {:induction false} SequenceBytesInjective(a: seq<TxIn>, b: seq<TxIn>)
    requires forall i :: 0 <= i < |a| ==> a[i].sequence < TWO_32
    requires forall i :: 0 <= i < |b| ==> b[i].sequence < TWO_32
    requires SequenceBytes(a) == SequenceBytes(b)
    ensures SequenceNumbers(a) == SequenceNumbers(b)
  {
    if a != [] && b != [] {
      Pow256Values();
      FixedPrefix(a[0].sequence, SequenceBytes(a[1..]), b[0].sequence, SequenceBytes(b[1..]), 4);
      SequenceBytesInjective(a[1..], b[1..]);
    }
  }

  /** An output can be read off the front of a concatenation in one way only. */
  lemma FourParts<T>(a: seq<T>, b: seq<T>, c: seq<T>, d: seq<T>)
    ensures a + b + c + d == a + (b + (c + d))
    ensures a + b + c + d == a + (b + c + d)
  {
  }

  lemma OutputPrefix(o: TxOut, r: seq<Byte>, p: TxOut, s: seq<Byte>)
    requires OutputInRange(o) && OutputInRange(p)
    requires OutputEncoding(o) + r == OutputEncoding(p) + s
    ensures o == p && r == s
  {
    Pow256Values();
    var vo, vp := VarInt(|o.script|), VarInt(|p.script|);
    FourParts(LittleEndian(o.value, 8), vo, o.script, r);
    FourParts(LittleEndian(p.value, 8), vp, p.script, s);
    FixedPrefix(o.value, vo + (o.script + r), p.value, vp + (p.script + s), 8);
    VarIntPrefix(|o.script|, o.script + r, |p.script|, p.script + s);
    SplitSame(o.script, r, p.script, s);
  }

  /** Concatenated outputs decode uniquely, however many there are. */
  lemma {:induction false} OutputBytesInjective(a: seq<TxOut>, b: seq<TxOut>)
    requires forall i :: 0 <= i < |a| ==> OutputInRange(a[i])
    requires forall i :: 0 <= i < |b| ==> OutputInRange(b[i])
    requires OutputBytes(a) == OutputBytes(b)
    ensures a == b
  {
    if a != [] && b != [] {
      OutputPrefix(a[0], OutputBytes(a[1..]), b[0], OutputBytes(b[1..]));
      OutputBytesInjective(a[1..], b[1..]);
      assert a == [a[0]] + a[1..] && b == [b[0]] + b[1..];
    }
  }

  /** The hash function does not send these two inputs to one digest. */
  ghost predicate NoCollision(sha: Sha256, x: seq<Byte>, y: seq<Byte>) {
    sha(x) == sha(y) ==> x == y
  }

  /** The three uses of the hash in two template hashes collide nowhere. */
  ghost predicate NoCollisions(sha: Sha256, a: Transaction, i: nat, b: Transaction, j: nat) {
    && NoCollision(sha, Preimage(a, i, sha), Preimage(b, j, sha))
    && NoCollision(sha, SequenceBytes(a.input), SequenceBytes(b.input))
    && NoCollision(sha, OutputBytes(a.output), OutputBytes(b.output))
  }

  lemma SameVersion(a: int, b: int)
    requires -0x8000_0000 <= a < 0x8000_0000 && -0x8000_0000 <= b < 0x8000_0000
    requires a % TWO_32 == b % TWO_32
    ensures a == b
  {
  }

  lemma HeaderInjective(a: Transaction, b: Transaction)
    requires InRange(a) && InRange(b) && Header(a) == Header(b)
    ensures a.version == b.version && a.lockTime == b.lockTime
  {
    Pow256Values();
    var na, nb := LittleEndian(|a.input| % TWO_32, 4), LittleEndian(|b.input| % TWO_32, 4);
    ConcatAssociative(LittleEndian(a.version % TWO_32, 4), LittleEndian(a.lockTime, 4), na);
    ConcatAssociative(LittleEndian(b.version % TWO_32, 4), LittleEndian(b.lockTime, 4), nb);
    FixedPrefix(a.version % TWO_32, LittleEndian(a.lockTime, 4) + na,
                b.version % TWO_32, LittleEndian(b.lockTime, 4) + nb, 4);
    FixedPrefix(a.lockTime, na, b.lockTime, nb, 4);
    SameVersion(a.version, b.version);
  }

  lemma PreimageParts(a: Transaction, i: nat, b: Transaction, j: nat, sha: Sha256)
    requires Preimage(a, i, sha) == Preimage(b, j, sha)
    ensures Header(a) == Header(b)
    ensures sha(SequenceBytes(a.input)) == sha(SequenceBytes(b.input))
    ensures sha(OutputBytes(a.output)) == sha(OutputBytes(b.output))
    ensures LittleEndian(i, 4) == LittleEndian(j, 4)
  {
    var a1, b1 := Header(a) + sha(SequenceBytes(a.input)), Header(b) + sha(SequenceBytes(b.input));
    var a2, b2 := a1 + LittleEndian(|a.output| % TWO_32, 4), b1 + LittleEndian(|b.output| % TWO_32, 4);
    var a3, b3 := a2 + sha(OutputBytes(a.output)), b2 + sha(OutputBytes(b.output));
    SplitSame(a3, LittleEndian(i, 4), b3, LittleEndian(j, 4));
    SplitSame(a2, sha(OutputBytes(a.output)), b2, sha(OutputBytes(b.output)));
    SplitSame(a1, LittleEndian(|a.output| % TWO_32, 4), b1, LittleEndian(|b.output| % TWO_32, 4));
    SplitSame(Header(a), sha(SequenceBytes(a.input)), Header(b), sha(SequenceBytes(b.input)));
  }

  /**
   * Equal template hashes mean equal versions, lock times, sequences, outputs
   * and input indices, for transactions of any size.
   */
  lemma TemplateHashInjective(a: Transaction, i: nat, b: Transaction, j: nat, sha: Sha256)
    requires InRange(a) && InRange(b) && i < TWO_32 && j < TWO_32
    requires NoCollisions(sha, a, i, b, j)
    ensures TemplateHash(a, i, sha) == TemplateHash(b, j, sha) <==>
              a.version == b.version && a.lockTime == b.lockTime && SequenceNumbers(a.input) == SequenceNumbers(b.input)
              && a.output == b.output && i == j
  {
    if TemplateHash(a, i, sha) == TemplateHash(b, j, sha) {
      PreimageParts(a, i, b, j, sha);
      HeaderInjective(a, b);
      SequenceBytesInjective(a.input, b.input);
      OutputBytesInjective(a.output, b.output);
      Pow256Values();
      LittleEndianInjective(i, j, 4);
    } else if a.version == b.version && a.lockTime == b.lockTime && SequenceNumbers(a.input) == SequenceNumbers(b.input)
              && a.output == b.output && i == j {
      SameSequences(a.input, b.input);
    }
  }

  lemma {:induction false} SameSequences(a: seq<TxIn>, b: seq<TxIn>)
    requires SequenceNumbers(a) == SequenceNumbers(b)
    ensures SequenceBytes(a) == SequenceBytes(b) && |a| == |b|
  {
    if a != [] && b != [] {
      assert SequenceNumbers(a)[1..] == SequenceNumbers(a[1..]) && SequenceNumbers(b)[1..] == SequenceNumbers(b[1..]);
      assert SequenceNumbers(a)[0] == SequenceNumbers(b)[0];
      SameSequences(a[1..], b[1..]);
    }
  }
}

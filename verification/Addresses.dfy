/** Bitcoin addresses and the scripts that they stand for. */
module Addresses {
  import opened Bytes

  type Hash160 = s: seq<Byte> | |s| == 20 witness seq(20, i => 0)

  type Version = n: nat | n <= 16

  type Program = s: seq<Byte> | 2 <= |s| <= 40 witness [0, 0]

  /** An address without its network, of which the script tells nothing. */
  datatype Address =
    | PubkeyHash(hash: Hash160)
    | ScriptHash(hash: Hash160)
    | WitnessProgram(version: Version, program: Program)

  function VersionOpcode(version: Version): Byte {
    if version == 0 then 0 else 0x50 + version
  }

  function ScriptPubkey(a: Address): seq<Byte> {
    match a
    case PubkeyHash(hash) => [0x76, 0xA9, 20] + hash + [0x88, 0xAC]
    case ScriptHash(hash) => [0xA9, 20] + hash + [0x87]
    case WitnessProgram(version, program) => [VersionOpcode(version), |program|] + program
  }

  /** The first two bytes tell the kind of an address, and with it its length. */
  function ScriptLength(first: Byte, second: Byte): nat {
    if first == 0x76 then 25 else if first == 0xA9 then 23 else 2 + second
  }

  lemma LengthIsTold(a: Address)
    ensures |ScriptPubkey(a)| >= 2
    ensures |ScriptPubkey(a)| == ScriptLength(ScriptPubkey(a)[0], ScriptPubkey(a)[1])
  {
  }

  lemma SameScript(a: Address, b: Address)
    requires ScriptPubkey(a) == ScriptPubkey(b)
    ensures a == b
  {
    var s, t := ScriptPubkey(a), ScriptPubkey(b);
    assert s[0] == t[0];
    match a
    case PubkeyHash(hash) => assert hash == s[3..23] == t[3..23];
    case ScriptHash(hash) => assert hash == s[2..22] == t[2..22];
    case WitnessProgram(_, program) => assert program == s[2..] == t[2..];
  }

  /** No address's script is a proper prefix of another's, so a script that starts a text is read off it. */
  lemma ScriptPrefix(a: Address, r: seq<Byte>, b: Address, s: seq<Byte>)
    requires ScriptPubkey(a) + r == ScriptPubkey(b) + s
    ensures a == b && r == s
  {
    LengthIsTold(a);
    LengthIsTold(b);
    var p, q := ScriptPubkey(a), ScriptPubkey(b);
    assert p[0] == (p + r)[0] == (q + s)[0] == q[0] && p[1] == (p + r)[1] == (q + s)[1] == q[1];
    SplitSame(p, r, q, s);
    SameScript(a, b);
  }
}

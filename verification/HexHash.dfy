/** Hexadecimal encoding of a SHA-256 digest (section 6.2 of FIPS 180-4), the digest itself left abstract. */
module HexHash {
  import opened Blocks

  type Digest = d: Bytes | |d| == 32 witness Zeros(32)

  const HEX_DIGITS := "0123456789abcdef"

  function High(b: Byte): (digit: nat)
    ensures digit < 16
  {
    b as int / 16
  }

  function Low(b: Byte): (digit: nat)
    ensures digit < 16
  {
    b as int % 16
  }

  /** Two lower-case digits a byte, high digit first. */
  function Hex(d: Digest): (s: Id)
    ensures |s| == HASH_SIZE
  {
    seq(HASH_SIZE, k requires 0 <= k < HASH_SIZE =>
      HEX_DIGITS[if k % 2 == 0 then High(d[k / 2]) else Low(d[k / 2])])
  }

  /** The hash the block store uses, over an abstract digest function. */
  function HashOf(sha: Bytes -> Digest): Bytes -> Id {
    b => Hex(sha(b))
  }

  method ComputeHash(sha: Bytes -> Digest, content: Bytes) returns (outString: Id)
    ensures outString == HashOf(sha)(content)
  {
    var output := sha(content);
    var stream: string := "";
    for i := 0 to 32
      invariant |stream| == 2 * i
      invariant forall k | 0 <= k < 2 * i :: stream[k] == Hex(output)[k]
    {
      stream := stream + [HEX_DIGITS[High(output[i])], HEX_DIGITS[Low(output[i])]];
    }
    assert stream == Hex(output);
    outString := stream;
  }

  lemma HexDigitsDiffer(i: nat, j: nat)
    requires i < 16 && j < 16 && HEX_DIGITS[i] == HEX_DIGITS[j]
    ensures i == j
  {
  }

  lemma HexByte(d: Digest, e: Digest, k: nat)
    requires k < 32
    requires Hex(d)[2 * k] == Hex(e)[2 * k] && Hex(d)[2 * k + 1] == Hex(e)[2 * k + 1]
    ensures d[k] == e[k]
  {
    assert (2 * k) / 2 == k && (2 * k + 1) / 2 == k && (2 * k) % 2 == 0 && (2 * k + 1) % 2 == 1;
    HexDigitsDiffer(High(d[k]), High(e[k]));
    HexDigitsDiffer(Low(d[k]), Low(e[k]));
  }

  lemma HexInjective(d: Digest, e: Digest)
    requires Hex(d) == Hex(e)
    ensures d == e
  {
    forall k | 0 <= k < 32
      ensures d[k] == e[k]
    {
      HexByte(d, e, k);
    }
  }

  lemma HexOfZeros()
    ensures Hex(Zeros(32)) == EmptyBlockHash()
  {
  }

  /**
    The reserved id is the encoding of the all-zero digest and of no other, so
    the assumptions on the ids are exactly assumptions on the digests.
   */
  lemma DigestsMakeSoundHash(sha: Bytes -> Digest, blockSize: nat, multi: bool, u: iset<Bytes>)
    requires blockSize > 0 && Zeros(blockSize) in u && forall b | b in u :: |b| == blockSize
    ensures Sound(Config(blockSize, multi, HashOf(sha)), u) <==>
            && (forall b | b in u :: sha(b) != Zeros(32))
            && (forall a, b | a in u && b in u && sha(a) == sha(b) :: a == b)
  {
    var c := Config(blockSize, multi, HashOf(sha));
    HexOfZeros();
    forall b | b in u
      ensures c.hash(b) == EmptyBlockHash() <==> sha(b) == Zeros(32)
    {
      if Hex(sha(b)) == EmptyBlockHash() {
        HexInjective(sha(b), Zeros(32));
      }
    }
    forall a, b | a in u && b in u
      ensures SameHash(c, a, b) <==> sha(a) == sha(b)
    {
      if Hex(sha(a)) == Hex(sha(b)) {
        HexInjective(sha(a), sha(b));
      }
    }
  }

  lemma HexHashesAreIds(sha: Bytes -> Digest, blockSize: nat, multi: bool)
    ensures HashesAreIds(Config(blockSize, multi, HashOf(sha)))
  {
    var c := Config(blockSize, multi, HashOf(sha));
    forall b: Bytes
      ensures |c.hash(b)| == HASH_SIZE
    {
      assert c.hash(b) == Hex(sha(b));
    }
  }

  // ---------- Subdirectories ----------

  const NUM_SUBDIRS := 1024
  const HASH_PREFIX_LENGTH := 6

  function DigitValue(ch: char): nat {
    if '0' <= ch <= '9' then ch as int - '0' as int
    else if 'a' <= ch <= 'f' then ch as int - 'a' as int + 10
    else 0
  }

  /** stoul(s, nullptr, 16) on a string of lower-case digits. */
  function ParseHex(s: string): nat {
    if s == "" then 0 else 16 * ParseHex(s[..|s| - 1]) + DigitValue(s[|s| - 1])
  }

  /** get_blocks_subdirectory: the first six digits of the id, modulo the number of subdirectories. */
  function Subdirectory(id: Id): nat
    requires |id| >= HASH_PREFIX_LENGTH
  {
    ParseHex(id[..HASH_PREFIX_LENGTH]) % NUM_SUBDIRS
  }

  lemma DigitValueInvertsHexDigit(i: nat)
    requires i < 16
    ensures DigitValue(HEX_DIGITS[i]) == i
  {
  }

  lemma ParseHexByte(s: string, hi: char, lo: char)
    ensures ParseHex(s + [hi, lo]) == 256 * ParseHex(s) + 16 * DigitValue(hi) + DigitValue(lo)
  {
    var t := s + [hi, lo];
    assert t[..|t| - 1] == s + [hi];
    assert (s + [hi])[..|s|] == s;
  }

  predicate IsLowerHex(ch: char) {
    '0' <= ch <= '9' || 'a' <= ch <= 'f'
  }

  /** Byte i is written as two digits that parse back to it, the high one first. */
  lemma HexPair(d: Digest, i: nat)
    requires i < 32
    ensures 16 * DigitValue(Hex(d)[2 * i]) + DigitValue(Hex(d)[2 * i + 1]) == d[i] as int
  {
    assert (2 * i) / 2 == i && (2 * i + 1) / 2 == i && (2 * i) % 2 == 0 && (2 * i + 1) % 2 == 1;
    DigitValueInvertsHexDigit(High(d[i]));
    DigitValueInvertsHexDigit(Low(d[i]));
  }

  /** And in lower case. */
  lemma HexIsLowerCase(d: Digest, k: nat)
    requires k < HASH_SIZE
    ensures IsLowerHex(Hex(d)[k])
  {
    LowerDigits(if k % 2 == 0 then High(d[k / 2]) else Low(d[k / 2]));
  }

  lemma LowerDigits(i: nat)
    requires i < 16
    ensures IsLowerHex(HEX_DIGITS[i])
  {
  }

  lemma ParseSix(s: string)
    requires |s| == 6
    ensures ParseHex(s) == 65536 * (16 * DigitValue(s[0]) + DigitValue(s[1]))
                           + 256 * (16 * DigitValue(s[2]) + DigitValue(s[3])) + 16 * DigitValue(s[4]) + DigitValue(s[5])
  {
    var two, four := [s[0], s[1]], [s[0], s[1], s[2], s[3]];
    assert "" + [s[0], s[1]] == two && two + [s[2], s[3]] == four && four + [s[4], s[5]] == s;
    ParseHexByte("", s[0], s[1]);
    ParseHexByte(two, s[2], s[3]);
    ParseHexByte(four, s[4], s[5]);
  }

  /** Parsing the id back recovers the digest: the subdirectory is the low ten bits of its first three bytes. */
  lemma SubdirectoryOfDigest(d: Digest)
    ensures var x, y, z := d[0] as int, d[1] as int, d[2] as int;
            && ParseHex(Hex(d)[..6]) == 65536 * x + 256 * y + z
            && Subdirectory(Hex(d)) == 256 * (y % 4) + z
  {
    HexPair(d, 0);
    HexPair(d, 1);
    HexPair(d, 2);
    ParseSix(Hex(d)[..6]);
    LowBits(d[0] as int, d[1] as int, d[2] as int);
  }

  lemma LowBits(x: int, y: int, z: int)
    requires 0 <= z < 256
    ensures (65536 * x + 256 * y + z) % 1024 == 256 * (y % 4) + z
  {
    assert 65536 * x + 256 * y + z == 1024 * (64 * x + y / 4) + (256 * (y % 4) + z);
  }
}

/** Blocks, content hashes and the configuration every other module shares. */
module Blocks {

  datatype Option<+T> = None | Some(value: T)

  newtype Byte = x: int | 0 <= x < 256

  type Bytes = seq<Byte>

  /** Characters in one block id, and so in one metadata record. */
  const HASH_SIZE := 64

  /** A block id: the characters that name a block in the store. */
  type Id = string

  /** The id of a block that was never stored; its contents are all zeros. */
  function EmptyBlockHash(): (id: Id)
    ensures |id| == HASH_SIZE
  {
    seq(HASH_SIZE, _ => '0')
  }

  function Zeros(n: nat): (b: Bytes)
    ensures |b| == n
  {
    seq(n, _ => 0)
  }

  /** `multi` is the outcome of is_multi_tiered(): the stash directory lives outside the base directory's parent. */
  datatype Config = Config(blockSize: nat, multi: bool, hash: Bytes -> Id)

  /**
    What a run asks of the hash: on the blocks `u` of the run it yields ids of
    the right length, has no collision and never produces the id kept for
    never-stored blocks.
   */
  ghost predicate Sound(c: Config, u: iset<Bytes>) {
    && c.blockSize > 0
    && Zeros(c.blockSize) in u
    && (forall b | b in u :: |b| == c.blockSize && |c.hash(b)| == HASH_SIZE && c.hash(b) != EmptyBlockHash())
    && (forall a, b {:trigger SameHash(c, a, b)} | a in u && b in u && SameHash(c, a, b) :: a == b)
  }

  /** compute_hash yields an id of the right length for any contents. */
  ghost predicate HashesAreIds(c: Config) {
    forall b :: |c.hash(b)| == HASH_SIZE
  }

  ghost predicate SameHash(c: Config, a: Bytes, b: Bytes) {
    c.hash(a) == c.hash(b)
  }

  /** The base directory and the stash directory each hold final files, named by hash. */
  datatype Tier = Base | Upper

  datatype FileName = File(tier: Tier, id: Id)

  /** Every file holds a block of the run and is named by that block's hash. */
  ghost predicate Named(c: Config, u: iset<Bytes>, files: map<FileName, Bytes>) {
    forall f | f in files :: files[f] in u && c.hash(files[f]) == f.id
  }

  lemma EmptyIsNoFile(c: Config, u: iset<Bytes>, files: map<FileName, Bytes>, tier: Tier)
    requires Sound(c, u) && Named(c, u, files)
    ensures File(tier, EmptyBlockHash()) !in files
  {
    forall f | f in files
      ensures f.id != EmptyBlockHash()
    {
      assert files[f] in u;
    }
  }

  /** A name fixes its contents, whatever the tier and whoever wrote the file. */
  lemma NameFixesContents(c: Config, u: iset<Bytes>, m: map<FileName, Bytes>, n: map<FileName, Bytes>)
    requires Sound(c, u) && Named(c, u, m) && Named(c, u, n)
    ensures forall f, g | f in m && g in n && f.id == g.id :: m[f] == n[g]
    ensures m.Keys == n.Keys ==> m == n
  {
    forall f, g | f in m && g in n && f.id == g.id
      ensures m[f] == n[g]
    {
      assert SameHash(c, m[f], n[g]);
    }
  }
}

/**
  The version metadata file: a flat run of 64-character records, record i being
  the id of block i. It is overwritten from the front and parsed when a version
  is opened.
 */
module Metadata {
  import opened Blocks

  ghost predicate WellFormed(file: string) {
    |file| % HASH_SIZE == 0
  }

  /** Number of records. */
  function Count(file: string): nat {
    |file| / HASH_SIZE
  }

  function Record(file: string, i: nat): Id
    requires i < Count(file)
  {
    file[HASH_SIZE * i..HASH_SIZE * i + HASH_SIZE]
  }

  /** The ids an opened version starts from: its records, then empty ids up to its capacity. */
  function LoadedIds(file: string, numBlocks: nat): (ids: seq<Id>)
    ensures |ids| == numBlocks && AllIds(ids)
  {
    seq(numBlocks, i requires 0 <= i < numBlocks =>
      if i < Count(file) then Record(file, i) else EmptyBlockHash())
  }

  ghost predicate AllIds(ids: seq<Id>) {
    forall i | 0 <= i < |ids| :: |ids[i]| == HASH_SIZE
  }

  /** The ids written one after the other. */
  function Encode(ids: seq<Id>): (s: string)
    requires AllIds(ids)
    ensures |s| == HASH_SIZE * |ids|
  {
    seq(HASH_SIZE * |ids|, k requires 0 <= k < HASH_SIZE * |ids| => ids[k / HASH_SIZE][k % HASH_SIZE])
  }

  /** pwrite at offset zero: the front is replaced, whatever lies beyond stays. */
  function Overlay(file: string, bytes: string): (r: string)
    ensures |r| == if |bytes| <= |file| then |file| else |bytes|
  {
    if |bytes| <= |file| then bytes + file[|bytes|..] else bytes
  }

  lemma EncodedRecord(ids: seq<Id>, i: nat, tail: string)
    requires AllIds(ids) && i < |ids|
    ensures HASH_SIZE * i + HASH_SIZE <= |Encode(ids) + tail|
    ensures (Encode(ids) + tail)[HASH_SIZE * i..HASH_SIZE * i + HASH_SIZE] == ids[i]
  {
    var r := (Encode(ids) + tail)[HASH_SIZE * i..HASH_SIZE * i + HASH_SIZE];
    forall j | 0 <= j < HASH_SIZE
      ensures r[j] == ids[i][j]
    {
      var k := HASH_SIZE * i + j;
      assert k / HASH_SIZE == i && k % HASH_SIZE == j;
    }
  }

  /**
    Writing n records over any well-formed file and opening it gives those n
    records, then the old file's own records, then empty ids.
   */
  lemma OverlayRoundTrip(file: string, ids: seq<Id>, numBlocks: nat)
    requires WellFormed(file) && Count(file) <= numBlocks && AllIds(ids) && |ids| <= numBlocks
    ensures var r := Overlay(file, Encode(ids));
            && WellFormed(r)
            && Count(r) == (if |ids| <= Count(file) then Count(file) else |ids|)
            && LoadedIds(r, numBlocks) == ids + LoadedIds(file, numBlocks)[|ids|..]
  {
    var r := Overlay(file, Encode(ids));
    assert |file| == HASH_SIZE * Count(file);
    var tail := if |ids| <= Count(file) then file[HASH_SIZE * |ids|..] else "";
    assert r == Encode(ids) + tail;
    forall i | 0 <= i < numBlocks
      ensures LoadedIds(r, numBlocks)[i] == (ids + LoadedIds(file, numBlocks)[|ids|..])[i]
    {
      if i < |ids| {
        EncodedRecord(ids, i, tail);
      } else if i < Count(file) {
        assert r[HASH_SIZE * i..HASH_SIZE * i + HASH_SIZE] == file[HASH_SIZE * i..HASH_SIZE * i + HASH_SIZE];
      }
    }
  }

  /** Writing the ids a file already loads to, up to any record count, does not change what it loads to. */
  lemma RewriteIsInvisible(file: string, n: nat, numBlocks: nat)
    requires WellFormed(file) && Count(file) <= numBlocks && n <= numBlocks
    ensures LoadedIds(Overlay(file, Encode(LoadedIds(file, numBlocks)[..n])), numBlocks) == LoadedIds(file, numBlocks)
  {
    OverlayRoundTrip(file, LoadedIds(file, numBlocks)[..n], numBlocks);
  }

  /** The file is its records: writing back all the ids it loads to gives it again, character by character. */
  lemma FileIsItsRecords(file: string)
    requires WellFormed(file)
    ensures Encode(LoadedIds(file, Count(file))) == file
  {
    var ids := LoadedIds(file, Count(file));
    forall k | 0 <= k < |file|
      ensures Encode(ids)[k] == file[k]
    {
      assert Encode(ids)[k] == Record(file, k / HASH_SIZE)[k % HASH_SIZE];
    }
  }

  /** The buffer update_metadata builds, a record at a time and a character at a time. */
  method FillBuffer(ids: array<Id>, numBlocks: nat) returns (bytes: array<char>)
    requires numBlocks <= ids.Length && AllIds(ids[..])
    ensures fresh(bytes) && bytes[..] == Encode(ids[..numBlocks])
  {
    bytes := new char[numBlocks * HASH_SIZE];
    ghost var want := Encode(ids[..numBlocks]);
    for i := 0 to numBlocks
      invariant forall k | 0 <= k < HASH_SIZE * i :: bytes[k] == want[k]
    {
      var record := ids[i];
      for j := 0 to HASH_SIZE
        invariant forall k | 0 <= k < HASH_SIZE * i + j :: bytes[k] == want[k]
      {
        assert (i * HASH_SIZE + j) / HASH_SIZE == i && (i * HASH_SIZE + j) % HASH_SIZE == j;
        bytes[i * HASH_SIZE + j] := record[j];
      }
    }
  }

  /** The open constructor's two loops. */
  method ParseIds(file: string, numBlocks: nat) returns (ids: array<Id>)
    requires |file| <= HASH_SIZE * numBlocks
    ensures fresh(ids) && ids[..] == LoadedIds(file, numBlocks)
  {
    ids := new Id[numBlocks];
    var i := 0;
    while i < |file|
      invariant i % HASH_SIZE == 0 && 0 <= i < |file| + HASH_SIZE
      invariant forall k | 0 <= k < i / HASH_SIZE && k < Count(file) :: ids[k] == Record(file, k)
    {
      ids[i / HASH_SIZE] := if i + HASH_SIZE <= |file| then file[i..i + HASH_SIZE] else file[i..];
      i := i + HASH_SIZE;
    }
    for j := Count(file) to numBlocks
      invariant forall k | 0 <= k < Count(file) :: ids[k] == Record(file, k)
      invariant forall k | Count(file) <= k < j :: ids[k] == EmptyBlockHash()
    {
      ids[j] := EmptyBlockHash();
    }
  }
}

/** Faults and user accesses: the region behaves as a flat array of bytes. */
module Access {
  import opened Blocks
  import opened Store
  import opened Pager
  import opened PagerLemmas

  // ---------- The handler ----------

  /**
    A fault that hardware can raise is handled: residency stays within the
    budget, no block's contents change, and the access that faulted is then
    permitted. Below the budget nothing is evicted.
   */
  lemma HandlerKeeps(c: Config, u: iset<Bytes>, p: Pager, b: nat, isWrite: bool) returns (q: Pager)
    requires Sound(c, u) && PagerOk(c, u, p) && b < |p.ids|
    requires !Permits(p.prot[b], isWrite) && !(p.readOnly && isWrite)
    ensures HandleFault(c, p, b, isWrite) == Some(q)
    ensures PagerOk(c, u, q) && SameContents(c, p, q) && Evolves(p.store, q.store) && SameRegion(p, q) && q.ids == p.ids
    ensures Permits(q.prot[b], isWrite) && b in q.present && q.present <= p.present + {b}
    ensures |p.present| < p.budget || b in p.present ==> q.present == p.present + {b} && q.stashSet <= p.stashSet
  {
    assert PageOk(c, u, p, b);
    InLists(p, b);
    if b in p.present {
      q := PresentWriteKeeps(c, u, p, b);
    } else {
      var e := EvictKeeps(c, u, p);
      q := MapInKeeps(c, u, e, b, isWrite);
      EvolvesTransitive(c, u, p.store, e.store, q.store);
    }
  }

  /** The case a handler call must not meet: a resident block faulting although its protection allows the access. */
  ghost predicate Spurious(p: Pager, b: nat, isWrite: bool) {
    b in p.present && !(if isWrite then b in p.clean else b in p.dirty)
  }

  /**
    The handler keeps the invariant exactly when it is not called for a read of a clean
    or a write of a dirty block.
   */
  lemma HandlerKeepsInvariantIff(c: Config, u: iset<Bytes>, p: Pager, b: nat, isWrite: bool)
    requires Sound(c, u) && PagerOk(c, u, p) && b < |p.ids| && !(p.readOnly && isWrite)
    ensures var r := HandleFault(c, p, b, isWrite);
            (r.Some? && PagerOk(c, u, r.value)) <==> !Spurious(p, b, isWrite)
  {
    assert PageOk(c, u, p, b);
    InLists(p, b);
    if b !in p.present || (isWrite && b in p.clean) {
      var q := HandlerKeeps(c, u, p, b, isWrite);
    } else if b in p.dirty {
      DirtyAgain(c, u, p, b, isWrite);
    } else {
      var q := FaultPresent(p, b, false).value;
      assert !PageOk(c, u, q, b);
    }
  }

  lemma DirtyAgain(c: Config, u: iset<Bytes>, p: Pager, b: nat, isWrite: bool)
    requires Sound(c, u) && PagerOk(c, u, p) && b < |p.ids| && b in p.dirty
    ensures FaultPresent(p, b, isWrite).Some?
    ensures PagerOk(c, u, FaultPresent(p, b, isWrite).value) <==> !isWrite
  {
    var q := FaultPresent(p, b, isWrite).value;
    InLists(p, b);
    if isWrite {
      assert multiset(q.dirty) == multiset{b} + multiset(p.dirty);
      assert (multiset(q.clean) + multiset(q.dirty))[b] > 1;
    } else {
      forall i | 0 <= i < |p.ids|
        ensures PageOk(c, u, q, i)
      {
        assert PageOk(c, u, p, i);
      }
    }
  }

  /** An access by the user, with its fault if it has one. */
  lemma AccessKeeps(c: Config, u: iset<Bytes>, p: Pager, b: nat, isWrite: bool) returns (q: Pager)
    requires Sound(c, u) && PagerOk(c, u, p) && b < |p.ids| && !(p.readOnly && isWrite)
    ensures AccessBlock(c, p, b, isWrite) == Some(q)
    ensures PagerOk(c, u, q) && SameContents(c, p, q) && Evolves(p.store, q.store) && SameRegion(p, q) && q.ids == p.ids
    ensures Permits(q.prot[b], isWrite) && b in q.present && q.present <= p.present + {b}
    ensures |p.present| < p.budget || b in p.present ==> q.present == p.present + {b} && q.stashSet <= p.stashSet
    ensures isWrite ==> b in q.dirty
  {
    assert PageOk(c, u, p, b);
    if Permits(p.prot[b], isWrite) {
      q := p;
    } else {
      q := HandlerKeeps(c, u, p, b, isWrite);
    }
    assert PageOk(c, u, q, b);
    InLists(q, b);
  }

  // ---------- Bytes ----------

  /** Which block an offset falls in, and where. */
  function BlockOf(c: Config, off: nat): nat
    requires c.blockSize > 0
  {
    off / c.blockSize
  }

  function Within(c: Config, off: nat): nat
    requires c.blockSize > 0
  {
    off % c.blockSize
  }

  ghost predicate InRegion(c: Config, p: Pager, off: nat) {
    c.blockSize > 0 && BlockOf(c, off) < |p.ids|
  }

  lemma DivMod(x: nat, d: nat)
    requires d > 0
    ensures x == x / d * d + x % d && x % d < d
  {
  }

  lemma Product(a: nat, b: nat, d: nat)
    requires a <= b
    ensures a * d <= b * d && (a + 1) * d == a * d + d
  {
  }

  lemma QuotientUnique(x: nat, d: nat, q: nat)
    requires d > 0 && q * d <= x < q * d + d
    ensures x / d == q
  {
    DivMod(x, d);
    var a := x / d;
    if a < q {
      Product(a + 1, q, d);
    } else if q < a {
      Product(q + 1, a, d);
    }
  }

  /** The region's offsets are those of its blocks, and a block's address converts back to its index. */
  lemma AddressArithmetic(off: nat, blockSize: nat, numBlocks: nat)
    requires blockSize > 0
    ensures off < numBlocks * blockSize <==> off / blockSize < numBlocks
    ensures off / blockSize * blockSize / blockSize == off / blockSize
  {
    DivMod(off, blockSize);
    var b := off / blockSize;
    if b < numBlocks {
      Product(b + 1, numBlocks, blockSize);
    } else {
      Product(numBlocks, b, blockSize);
    }
    QuotientUnique(b * blockSize, blockSize, b);
  }

  /** Offset b * blockSize + r is byte r of block b. */
  lemma OffsetInBlock(c: Config, b: nat, r: nat)
    requires r < c.blockSize
    ensures BlockOf(c, b * c.blockSize + r) == b && Within(c, b * c.blockSize + r) == r
  {
    QuotientUnique(b * c.blockSize + r, c.blockSize, b);
    DivMod(b * c.blockSize + r, c.blockSize);
  }

  /**
    The flat array is the blocks one after the other: byte r of block b is at offset b *
    blockSize + r (OffsetInBlock).
   */
  lemma FlatIsBlocks(c: Config, u: iset<Bytes>, p: Pager, b: nat, r: nat, off: nat)
    requires Sound(c, u) && PagerOk(c, u, p) && b < |p.ids| && BlockOf(c, off) == b && Within(c, off) == r
    ensures InRegion(c, p, off) && |Logical(c, p, b)| == c.blockSize && Flat(c, p, off) == Logical(c, p, b)[r]
  {
    LogicalIsBlock(c, u, p, b);
  }

  lemma OffsetsDiffer(c: Config, a: nat, b: nat)
    requires c.blockSize > 0 && BlockOf(c, a) == BlockOf(c, b) && Within(c, a) == Within(c, b)
    ensures a == b
  {
    DivMod(a, c.blockSize);
    DivMod(b, c.blockSize);
  }

  /** The flat array of bytes the user sees. */
  ghost function Flat(c: Config, p: Pager, off: nat): Byte
    requires InRegion(c, p, off) && |p.mem| == |p.ids|
    requires |Logical(c, p, BlockOf(c, off))| == c.blockSize
  {
    Logical(c, p, BlockOf(c, off))[Within(c, off)]
  }

  lemma LogicalIsBlock(c: Config, u: iset<Bytes>, p: Pager, i: nat)
    requires Sound(c, u) && PagerOk(c, u, p) && i < |p.ids|
    ensures Logical(c, p, i) in u && |Logical(c, p, i)| == c.blockSize
  {
    assert PageOk(c, u, p, i);
    BackingInUniverse(c, u, p, i);
  }

  /** A load instruction. */
  ghost function Load(c: Config, p: Pager, off: nat): Option<(Pager, Byte)>
    requires Shape(p) && InRegion(c, p, off)
  {
    var r := AccessBlock(c, p, BlockOf(c, off), false);
    if r.None? || |r.value.mem| <= BlockOf(c, off) || |r.value.mem[BlockOf(c, off)]| != c.blockSize then None
    else Some((r.value, r.value.mem[BlockOf(c, off)][Within(c, off)]))
  }

  /** A store instruction. None: the process exits. */
  ghost function StoreByte(c: Config, p: Pager, off: nat, v: Byte): Option<Pager>
    requires Shape(p) && InRegion(c, p, off)
  {
    var b := BlockOf(c, off);
    var r := AccessBlock(c, p, b, true);
    if r.None? || |r.value.mem| <= b || |r.value.mem[b]| != c.blockSize then None
    else Some(r.value.(mem := r.value.mem[b := r.value.mem[b][Within(c, off) := v]]))
  }

  /** The block a store instruction leaves behind. */
  ghost function Written(c: Config, p: Pager, off: nat, v: Byte): Bytes
    requires InRegion(c, p, off) && |p.mem| == |p.ids|
    requires |Logical(c, p, BlockOf(c, off))| == c.blockSize
  {
    Logical(c, p, BlockOf(c, off))[Within(c, off) := v]
  }

  /** A load returns the flat array's byte and leaves every block's contents as they were. */
  lemma LoadKeeps(c: Config, u: iset<Bytes>, p: Pager, off: nat) returns (q: Pager)
    requires Sound(c, u) && PagerOk(c, u, p) && InRegion(c, p, off)
    ensures |Logical(c, p, BlockOf(c, off))| == c.blockSize
    ensures Load(c, p, off) == Some((q, Flat(c, p, off)))
    ensures PagerOk(c, u, q) && SameContents(c, p, q) && Evolves(p.store, q.store) && SameRegion(p, q) && q.ids == p.ids
    ensures q.present <= p.present + {BlockOf(c, off)} && BlockOf(c, off) in q.present
    ensures |p.present| < p.budget || BlockOf(c, off) in p.present ==>
              q.present == p.present + {BlockOf(c, off)} && q.stashSet <= p.stashSet
  {
    var b := BlockOf(c, off);
    LogicalIsBlock(c, u, p, b);
    q := AccessKeeps(c, u, p, b, false);
    assert Logical(c, q, b) == Logical(c, p, b);
  }

  lemma DirtyWrite(c: Config, u: iset<Bytes>, p: Pager, b: nat, block: Bytes)
    requires Sound(c, u) && PagerOk(c, u, p) && b < |p.ids| && b in p.dirty && block in u
    ensures var q := p.(mem := p.mem[b := block]);
            && PagerOk(c, u, q)
            && forall i | 0 <= i < |p.ids| :: Logical(c, q, i) == if i == b then block else Logical(c, p, i)
  {
    var q := p.(mem := p.mem[b := block]);
    InLists(p, b);
    forall i | 0 <= i < |p.ids|
      ensures PageOk(c, u, q, i) && Logical(c, q, i) == if i == b then block else Logical(c, p, i)
    {
      assert PageOk(c, u, p, i);
      assert Backing(c, q, i) == Backing(c, p, i);
    }
  }

  /** A store changes its own byte of the flat array and no other. */
  lemma StoreByteKeeps(c: Config, u: iset<Bytes>, p: Pager, off: nat, v: Byte) returns (q: Pager)
    requires Sound(c, u) && PagerOk(c, u, p) && InRegion(c, p, off) && !p.readOnly
    requires |Logical(c, p, BlockOf(c, off))| == c.blockSize && Written(c, p, off, v) in u
    ensures StoreByte(c, p, off, v) == Some(q)
    ensures PagerOk(c, u, q) && Evolves(p.store, q.store) && SameRegion(p, q) && q.ids == p.ids
    ensures forall i | 0 <= i < |p.ids| ::
              Logical(c, q, i) == if i == BlockOf(c, off) then Written(c, p, off, v) else Logical(c, p, i)
    ensures q.present <= p.present + {BlockOf(c, off)} && BlockOf(c, off) in q.present
    ensures |p.present| < p.budget || BlockOf(c, off) in p.present ==>
              q.present == p.present + {BlockOf(c, off)} && q.stashSet <= p.stashSet
  {
    var b := BlockOf(c, off);
    var r := AccessKeeps(c, u, p, b, true);
    assert Logical(c, r, b) == Logical(c, p, b);
    DirtyWrite(c, u, r, b, Written(c, p, off, v));
    q := r.(mem := r.mem[b := Written(c, p, off, v)]);
  }

  lemma StoreIsPointUpdate(c: Config, u: iset<Bytes>, p: Pager, off: nat, v: Byte, at: nat)
    requires Sound(c, u) && PagerOk(c, u, p) && InRegion(c, p, off) && InRegion(c, p, at) && !p.readOnly
    requires |Logical(c, p, BlockOf(c, off))| == c.blockSize && Written(c, p, off, v) in u
    ensures StoreByte(c, p, off, v).Some?
    ensures var q := StoreByte(c, p, off, v).value;
            && PagerOk(c, u, q) && InRegion(c, q, at)
            && |Logical(c, q, BlockOf(c, at))| == |Logical(c, p, BlockOf(c, at))| == c.blockSize
            && Flat(c, q, at) == if at == off then v else Flat(c, p, at)
  {
    var q := StoreByteKeeps(c, u, p, off, v);
    LogicalIsBlock(c, u, p, BlockOf(c, at));
    LogicalIsBlock(c, u, q, BlockOf(c, at));
    if BlockOf(c, at) == BlockOf(c, off) && Within(c, at) == Within(c, off) {
      OffsetsDiffer(c, at, off);
    }
  }
}

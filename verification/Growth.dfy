/**
 The block-growth rule over whole runs: capacities never shrink, the scan cache is exact, the
 slow path is a naive first-fit search, and the number of blocks is bounded. All of it holds
 while the initial capacity and every request stay within 16 MiB, and fails beyond.
 */
module Growth {
  import opened Bits
  import opened Wrappers
  import opened Drops
  import opened ArenaModel
  import opened ArenaInvariants
  import opened Rewinding

  /** A request whose worst case, and twice its alignment, fit in the largest ordinary block. */
  predicate Modest(size: nat, align: nat) {
    size > 0 && IsPow2(align) && size + align - 1 <= MAX_BLOCK_SIZE && 2 * align <= MAX_BLOCK_SIZE
  }

  function Twice(capacity: nat): nat { Min(2 * capacity, MAX_BLOCK_SIZE) }

  /** Every block after the first is a power of two at least double its predecessor, up to 16 MiB. */
  ghost predicate Doubling(blocks: seq<Blk>) {
    && |blocks| > 0 && MIN_BLOCK_SIZE <= blocks[0].capacity
    && (forall j :: 0 <= j < |blocks| ==> blocks[j].capacity <= MAX_BLOCK_SIZE)
    && (forall j :: 0 < j < |blocks| ==> IsPow2(blocks[j].capacity))
    && (forall j :: 0 < j < |blocks| ==> Twice(blocks[j - 1].capacity) <= blocks[j].capacity)
  }

  /** The growth setting promises a next block at least double the last one. */
  ghost predicate Poised(blocks: seq<Blk>, next: nat) {
    && |blocks| > 0 && next <= MAX_BLOCK_SIZE
    && Twice(blocks[|blocks| - 1].capacity) <= NextPow2(next)
  }

  /** The block named by the cache is the largest of all. */
  ghost predicate Peak(s: State) {
    && s.largestIdx < |s.blocks|
    && forall j :: 0 <= j < |s.blocks| ==> s.blocks[j].capacity <= s.blocks[s.largestIdx].capacity
  }

  ghost predicate Grown(s: State) {
    Doubling(s.blocks) && Poised(s.blocks, s.nextSize) && Peak(s)
  }

  // ----- arithmetic of the rule ------------------------------------------------------------------

  lemma MaxBlockIsPow2()
    ensures IsPow2(MAX_BLOCK_SIZE)
  {
    Pow2IsPow2(24);
    assert Pow2(8) == 0x100;
    Pow2Add(8, 8);
    Pow2Add(16, 8);
  }

  /** For modest requests the computed size is the next power of two of the largest demand. */
  lemma NextBlockModest(next: nat, size: nat, align: nat)
    requires next <= MAX_BLOCK_SIZE && Modest(size, align)
    ensures NextBlockFor(next, size, align).Some?
    ensures var (capacity, next') := NextBlockFor(next, size, align).value;
            && IsPow2(capacity) && NextPow2(next) <= capacity <= MAX_BLOCK_SIZE
            && next' <= MAX_BLOCK_SIZE && Twice(capacity) <= NextPow2(next') && NextPow2(next) <= NextPow2(next')
  {
    var wanted := Max(Max(next, size + (align - 1)), align * 2);
    MaxBlockIsPow2();
    NextPow2Least(wanted, MAX_BLOCK_SIZE);
    NextPow2Least(next, NextPow2(wanted));
    var capacity := NextPow2(wanted);
    var next' := Min(capacity + capacity / 2, MAX_BLOCK_SIZE);
    assert NextBlockFor(next, size, align) == Some((capacity, next'));
    if next' < MAX_BLOCK_SIZE {
      NextPow2Doubles(capacity, next');
    }
  }

  /**
   Up to 16 MiB the opened block is the smallest power of two that covers the growth setting, the
   worst case and twice the alignment. The setting after it is half as much again, so that a next
   block for a smaller demand is exactly twice as large.
   */
  lemma {:induction false} NextBlockLeast(next: nat, size: nat, align: nat)
    requires next <= MAX_BLOCK_SIZE && Modest(size, align)
    ensures NextBlockFor(next, size, align).Some?
    ensures var (capacity, next') := NextBlockFor(next, size, align).value;
            && IsPow2(capacity) && next <= capacity && size + align - 1 <= capacity && 2 * align <= capacity
            && (forall p :: IsPow2(p) && next <= p && size + align - 1 <= p && 2 * align <= p ==> capacity <= p)
            && next' == Min(3 * capacity / 2, MAX_BLOCK_SIZE) && NextPow2(next') == Twice(capacity)
  {
    NextBlockModest(next, size, align);
    var (capacity, next') := NextBlockFor(next, size, align).value;
    LeastPower(next, size, align, capacity, next');
    PromisedTwice(capacity, next');
  }

  lemma {:induction false} LeastPower(next: nat, size: nat, align: nat, capacity: nat, next': nat)
    requires next <= MAX_BLOCK_SIZE && Modest(size, align) && NextBlockFor(next, size, align) == Some((capacity, next'))
    ensures next <= capacity && size + align - 1 <= capacity && 2 * align <= capacity
    ensures forall p :: IsPow2(p) && next <= p && size + align - 1 <= p && 2 * align <= p ==> capacity <= p
    ensures next' == Min(capacity + capacity / 2, MAX_BLOCK_SIZE)
  {
    var wanted := Max(Max(next, size + (align - 1)), align * 2);
    MaxBlockIsPow2();
    NextPow2Least(wanted, MAX_BLOCK_SIZE);
    forall p | IsPow2(p) && next <= p && size + align - 1 <= p && 2 * align <= p ensures capacity <= p {
      NextPow2Least(wanted, p);
    }
  }

  /** Half as much again as a power of two rounds up to its double. */
  lemma {:induction false} PromisedTwice(capacity: nat, next': nat)
    requires IsPow2(capacity) && 2 <= capacity <= MAX_BLOCK_SIZE && next' == Min(capacity + capacity / 2, MAX_BLOCK_SIZE)
    ensures next' == Min(3 * capacity / 2, MAX_BLOCK_SIZE) && NextPow2(next') == Twice(capacity)
  {
    MaxBlockIsPow2();
    NextPow2Least(next', MAX_BLOCK_SIZE);
    if next' < MAX_BLOCK_SIZE {
      NextPow2Doubles(capacity, next');
      NextPow2Least(next', 2 * capacity);
    }
  }

  /** Beyond 16 MiB the block is exactly as large as the request needs, whatever the growth setting. */
  lemma {:induction false} NextBlockLarge(next: nat, size: nat, align: nat)
    requires next <= MAX_BLOCK_SIZE && ValidAlign(align) && size + align - 1 <= USIZE_MAX
    requires size + align - 1 > MAX_BLOCK_SIZE || 2 * align > MAX_BLOCK_SIZE
    ensures NextBlockFor(next, size, align) == Some((Max(size + align - 1, 2 * align), MAX_BLOCK_SIZE))
  {}

  /** A new arena reserves its capacity, at least 64 bytes, and promises twice that for the next block. */
  lemma {:induction false} FirstBlock(initial: nat, base: nat, size: nat, align: nat)
    requires initial <= MAX_BLOCK_SIZE && Modest(size, align)
    ensures var s := WithCapacity(initial, base);
            var c := if initial < 64 then 64 else initial;
            && s.blocks == [Blk(base, c, 64, 0)] && s.bytesReserved == c && Reported(s) == 0
            && s.nextSize == Twice(c)
            && (size + align - 1 <= Twice(c) && 2 * align <= Twice(c) ==>
                  NextBlockFor(s.nextSize, size, align).Some?
                  && NextBlockFor(s.nextSize, size, align).value.0 == NextPow2(Twice(c)))
  {
    NextBlockLeast(WithCapacity(initial, base).nextSize, size, align);
    var c := if initial < 64 then 64 else initial;
    MaxBlockIsPow2();
    NextPow2Least(Twice(c), MAX_BLOCK_SIZE);
  }

  lemma {:induction false} CapacitiesNondecreasing(blocks: seq<Blk>, i: nat, j: nat)
    requires Doubling(blocks) && i <= j < |blocks|
    ensures blocks[i].capacity <= blocks[j].capacity
    decreases j
  {
    if i < j {
      CapacitiesNondecreasing(blocks, i, j - 1);
    }
  }

  // ----- steps keep the growth law ---------------------------------------------------------------

  predicate SameCapacities(a: seq<Blk>, b: seq<Blk>) {
    |a| == |b| && forall j :: 0 <= j < |a| ==> a[j].capacity == b[j].capacity
  }

  lemma AllocatedKeepsGrown(s: State, t: State, out: Outcome, size: nat, align: nat)
    requires CursorOk(s) && Grown(s) && CacheOk(s) && Modest(size, align)
    requires Allocated(s, t, out, size, align) && GrowthStep(s, t, out, size, align)
    ensures Grown(t)
  {
    if out.Placed? && out.blk == |s.blocks| {
      OpenedKeepsGrown(s, t, size, align);
    } else {
      SteadyKeepsGrown(s, t, out, size, align);
      if out.Placed? && out.blk != s.current {
        SwitchedKeepsPeak(s, t, out.blk, size, align);
      }
    }
  }

  lemma SteadyKeepsGrown(s: State, t: State, out: Outcome, size: nat, align: nat)
    requires CursorOk(s) && Doubling(s.blocks) && Poised(s.blocks, s.nextSize) && Modest(size, align)
    requires Allocated(s, t, out, size, align) && GrowthStep(s, t, out, size, align)
    requires out.Placed? ==> out.blk < |s.blocks|
    ensures Doubling(t.blocks) && Poised(t.blocks, t.nextSize) && SameCapacities(s.blocks, t.blocks)
  {
    NextBlockModest(s.nextSize, size, align);
    SameCapacitiesDoubling(s, t);
  }

  lemma SameCapacitiesDoubling(s: State, t: State)
    requires Doubling(s.blocks) && Poised(s.blocks, s.nextSize) && SameCapacities(s.blocks, t.blocks)
    requires t.nextSize <= MAX_BLOCK_SIZE && NextPow2(s.nextSize) <= NextPow2(t.nextSize)
    ensures Doubling(t.blocks) && Poised(t.blocks, t.nextSize)
  {}

  lemma OpenedKeepsGrown(s: State, t: State, size: nat, align: nat)
    requires Doubling(s.blocks) && Poised(s.blocks, s.nextSize) && OpenedInto(s, t, size, align)
    requires Modest(size, align) && CacheOk(t) && GrowthStep(s, t, Placed(|s.blocks|, 0), size, align)
    ensures Grown(t)
  {
    NextBlockModest(s.nextSize, size, align);
    OpenedDoubling(s, t);
    forall j | 0 <= j < |t.blocks| ensures t.blocks[j].capacity <= t.blocks[t.largestIdx].capacity {
      CapacitiesNondecreasing(t.blocks, j, |s.blocks|);
    }
  }

  lemma OpenedDoubling(s: State, t: State)
    requires Doubling(s.blocks) && |t.blocks| == |s.blocks| + 1
    requires forall j :: 0 <= j < |s.blocks| ==> t.blocks[j].capacity == s.blocks[j].capacity
    requires var c := t.blocks[|s.blocks|].capacity;
             IsPow2(c) && Twice(s.blocks[|s.blocks| - 1].capacity) <= c <= MAX_BLOCK_SIZE
    ensures Doubling(t.blocks)
  {}

  lemma SwitchedKeepsPeak(s: State, t: State, i: nat, size: nat, align: nat)
    requires Peak(s) && Doubling(t.blocks) && Switched(s, t, i, size, align) && SameCapacities(s.blocks, t.blocks)
    ensures Peak(t)
  {
    if s.largestIdx <= i {
      forall j | 0 <= j < |t.blocks| ensures t.blocks[j].capacity <= t.blocks[t.largestIdx].capacity {
        if j <= t.largestIdx {
          CapacitiesNondecreasing(t.blocks, j, t.largestIdx);
        }
      }
    }
  }

  lemma RewoundKeepsGrown(m: State, s: State, t: State, bad: set<Elem>)
    requires Grown(s) && Rewound(m, s, t, bad)
    ensures Grown(t)
  {}

  lemma EmptiedKeepsGrown(s: State, t: State)
    requires Grown(s) && Emptied(s, t)
    ensures Grown(t)
  {
    assert SameCapacities(s.blocks, t.blocks);
    SameCapacitiesDoubling(s, t);
    forall j | 0 <= j < |t.blocks| ensures t.blocks[j].capacity <= t.blocks[t.largestIdx].capacity {
      if j <= t.largestIdx {
        CapacitiesNondecreasing(t.blocks, j, t.largestIdx);
      }
    }
  }

  lemma WithCapacityGrown(initial: nat, base: nat)
    requires initial <= MAX_BLOCK_SIZE
    ensures Grown(WithCapacity(initial, base))
  {}

  // ----- consequences ----------------------------------------------------------------------------

  /** The cached bound equals the true maximum of the free space after the current block. */
  lemma CacheIsExact(s: State)
    requires CursorOk(s) && CacheOk(s) && Peak(s)
    ensures s.largest == LargestIn(Rooms(s.blocks), s.current, |s.blocks|).0
  {
    LargestInMeaning(Rooms(s.blocks), s.current, |s.blocks|);
    assert Rooms(s.blocks)[s.largestIdx] == Room(s.blocks[s.largestIdx]);
  }

  /** With an exact cache the whole allocation path is a naive first-fit search from the cursor on. */
  lemma TargetIsFirstFit(s: State, size: nat, align: nat)
    requires CursorOk(s) && CacheOk(s) && Peak(s) && 0 < align <= MIN_BLOCK_ALIGN && size > 0
    ensures Target(s, size, align) ==
            if BumpFits(s, size, align) then s.current else FirstFit(s.blocks, size, s.current + 1)
  {}

  // ----- how many blocks -------------------------------------------------------------------------

  lemma {:induction false} CapacityLowerBound(blocks: seq<Blk>, j: nat)
    requires Doubling(blocks) && j < |blocks|
    ensures blocks[j].capacity >= Min(MIN_BLOCK_SIZE * Pow2(j), MAX_BLOCK_SIZE)
  {
    if j > 0 {
      CapacityLowerBound(blocks, j - 1);
      assert MIN_BLOCK_SIZE * Pow2(j) == 2 * (MIN_BLOCK_SIZE * Pow2(j - 1));
    }
  }

  lemma EighteenDoublings()
    ensures MIN_BLOCK_SIZE * Pow2(18) == MAX_BLOCK_SIZE
  {
    assert Pow2(9) == 0x200;
    Pow2Add(9, 9);
  }

  lemma {:induction false} LateBlocksAreFull(blocks: seq<Blk>, j: nat)
    requires Doubling(blocks) && 18 <= j < |blocks|
    ensures blocks[j].capacity == MAX_BLOCK_SIZE
  {
    CapacityLowerBound(blocks, j);
    Pow2Monotone(18, j);
    EighteenDoublings();
  }

  lemma {:induction false} ReservedLowerBound(blocks: seq<Blk>, n: nat)
    requires Doubling(blocks) && n <= |blocks|
    ensures n > 18 ==> TotalCapacity(blocks[..n]) >= (n - 18) * MAX_BLOCK_SIZE
  {
    if n > 18 {
      ReservedLowerBound(blocks, n - 1);
      LateBlocksAreFull(blocks, n - 1);
      assert blocks[..n][..n - 1] == blocks[..n - 1];
    }
  }

  /** At most 18 blocks of overhead: every further block is a full 16 MiB of reserved space. */
  lemma BlockCountBound(s: State)
    requires AccountOk(s) && Doubling(s.blocks)
    ensures |s.blocks| <= 18 + s.bytesReserved / MAX_BLOCK_SIZE
  {
    ReservedLowerBound(s.blocks, |s.blocks|);
    assert s.blocks[..|s.blocks|] == s.blocks;
  }
}

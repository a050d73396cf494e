/**
 The invariant of every reachable arena state, and the proof that allocation, refusal, in-place
 growth, destructor registration and reset keep it. Rewinding is in `Rewinding`.
 */
module ArenaInvariants {
  import opened Bits
  import opened Wrappers
  import opened ArenaModel

  // ----- the invariant ---------------------------------------------------------------------------

  predicate BlkOk(b: Blk) {
    && b.align >= MIN_BLOCK_ALIGN
    && 0 < b.base && Aligned(b.base, MIN_BLOCK_ALIGN)
    && 0 < b.capacity && b.offset <= b.capacity
    && b.base + b.capacity + b.align <= USIZE_MAX
  }

  predicate Apart(blocks: seq<Blk>, i: nat, j: nat)
    requires i < |blocks| && j < |blocks|
  {
    Disjoint(blocks[j].base, blocks[j].capacity, blocks[i].base, blocks[i].capacity)
  }

  ghost predicate BlocksOk(blocks: seq<Blk>) {
    && (forall j :: 0 <= j < |blocks| ==> BlkOk(blocks[j]))
    && (forall i, j :: 0 <= i < j < |blocks| ==> Apart(blocks, i, j))
  }

  /** The cursor sits at the end of the newest live region; blocks after it are empty. */
  ghost predicate CursorOk(s: State) {
    && Shape(s)
    && s.used <= s.blocks[s.current].capacity
    && (forall j :: s.current < j < |s.blocks| ==> s.blocks[j].offset == 0)
    && s.current <= s.highWater < |s.blocks|
    && (s.live == [] ==> s.current == 0 && s.used == 0)
    && (s.live != [] ==> var r := s.live[|s.live| - 1]; r.blk == s.current && r.off + r.size == s.used)
  }

  /** No block follows the current one, or the cache names one that does and its free bytes. */
  ghost predicate CacheOk(s: State) {
    && Shape(s)
    && if s.current + 1 < |s.blocks|
       then s.current < s.largestIdx && s.largest == s.blocks[s.largestIdx].capacity
       else s.largestIdx == s.current && s.largest == 0
  }

  predicate InBlock(s: State, r: Region) {
    && r.blk < |s.blocks| && r.blk <= s.current
    && r.size > 0 && r.off + r.size <= Used(s, r.blk)
    && r.align > 0 && Aligned(s.blocks[r.blk].base + r.off, r.align)
    && r.entered <= r.size && (r.blk == 0 ==> r.entered == 0)
  }

  predicate Before(p: Region, r: Region) {
    p.blk < r.blk || (p.blk == r.blk && p.off + p.size <= r.off)
  }

  /** Region `i` lies entirely before region `k`, in block order and then by offset. */
  predicate Ordered(live: seq<Region>, i: nat, k: nat)
    requires i < |live| && k < |live|
  {
    Before(live[i], live[k])
  }

  ghost predicate LiveOk(s: State) {
    && (forall k :: 0 <= k < |s.live| ==> InBlock(s, s.live[k]))
    && (forall i, k :: 0 <= i < k < |s.live| ==> Ordered(s.live, i, k))
  }

  function SumOffsets(blocks: seq<Blk>, k: nat): nat
    requires k <= |blocks|
  {
    if k == 0 then 0 else SumOffsets(blocks, k - 1) + blocks[k - 1].offset
  }

  function TotalCapacity(blocks: seq<Blk>): nat {
    if blocks == [] then 0
    else TotalCapacity(blocks[..|blocks| - 1]) + blocks[|blocks| - 1].capacity
  }

  /** Bytes taken, padding included, from blocks `0..=current`. */
  function InUse(s: State): nat
    requires s.current < |s.blocks|
  {
    SumOffsets(s.blocks, s.current) + s.used
  }

  function Entering(live: seq<Region>): nat {
    if live == [] then 0 else Entering(live[..|live| - 1]) + live[|live| - 1].entered
  }

  function Payload(live: seq<Region>): nat {
    if live == [] then 0 else Payload(live[..|live| - 1]) + live[|live| - 1].size
  }

  /** The exact law of the reported counters. */
  ghost predicate AccountOk(s: State) {
    && s.current < |s.blocks|
    && Reported(s) == InUse(s) + Entering(s.live) + s.recounted
    && s.bytesReserved == TotalCapacity(s.blocks)
  }

  ghost predicate DropsOk(s: State) {
    s.slots == SlotsOf(s.live)
  }

  ghost predicate Inv(s: State) {
    BlocksOk(s.blocks) && CursorOk(s) && CacheOk(s) && LiveOk(s) && AccountOk(s) && DropsOk(s)
  }

  /** Only offsets differ, and they stay within capacity. */
  ghost predicate SameBlocks(a: seq<Blk>, b: seq<Blk>) {
    && |a| == |b|
    && forall j :: 0 <= j < |a| ==> b[j] == a[j].(offset := b[j].offset) && b[j].offset <= b[j].capacity
  }

  lemma SameBlocksOk(a: seq<Blk>, b: seq<Blk>)
    requires BlocksOk(a) && SameBlocks(a, b)
    ensures BlocksOk(b) && TotalCapacity(a) == TotalCapacity(b)
  {
    TotalCapacitySame(a, b);
    forall i, j | 0 <= i < j < |b| ensures Apart(b, i, j) {
      assert Apart(a, i, j);
    }
  }

  // ----- small facts -----------------------------------------------------------------------------

  lemma {:induction false} SumOffsetsSame(a: seq<Blk>, b: seq<Blk>, k: nat)
    requires k <= |a| && k <= |b|
    requires forall j :: 0 <= j < k ==> a[j].offset == b[j].offset
    ensures SumOffsets(a, k) == SumOffsets(b, k)
  {
    if k > 0 {
      SumOffsetsSame(a, b, k - 1);
    }
  }

  lemma {:induction false} SumOffsetsZeros(a: seq<Blk>, i: nat, k: nat)
    requires i <= k <= |a| && forall j :: i <= j < k ==> a[j].offset == 0
    ensures SumOffsets(a, k) == SumOffsets(a, i)
    decreases k
  {
    if i < k {
      SumOffsetsZeros(a, i, k - 1);
    }
  }

  lemma {:induction false} TotalCapacitySame(a: seq<Blk>, b: seq<Blk>)
    requires |a| == |b| && forall j :: 0 <= j < |a| ==> a[j].capacity == b[j].capacity
    ensures TotalCapacity(a) == TotalCapacity(b)
    decreases |a|
  {
    if a != [] {
      TotalCapacitySame(a[..|a| - 1], b[..|b| - 1]);
    }
  }

  lemma TotalCapacityPush(a: seq<Blk>, b: Blk)
    ensures TotalCapacity(a + [b]) == TotalCapacity(a) + b.capacity
  {}

  lemma LivePush(live: seq<Region>, r: Region)
    ensures Entering(live + [r]) == Entering(live) + r.entered
    ensures Payload(live + [r]) == Payload(live) + r.size
    ensures SlotsOf(live + [r]) == SlotsOf(live) + if r.slot.Some? then [r.slot.value] else []
  {}

  /** A request starts at an empty block's base when the base is aligned for it. */
  lemma FitEmpty(b: Blk, size: nat, align: nat)
    requires b.offset == 0 && align > 0 && Aligned(b.base, align) && b.base + b.capacity <= USIZE_MAX
    ensures Fit(b, size, align) == if size <= b.capacity then Some(0) else None
  {
    RoundUpAligned(b.base, align);
  }

  lemma SmallAligned(base: nat, align: nat)
    requires Aligned(base, MIN_BLOCK_ALIGN) && IsPow2(align) && align <= MIN_BLOCK_ALIGN
    ensures Aligned(base, align)
  {
    assert IsPow2(8);
    AlignedDown(base, MIN_BLOCK_ALIGN, align);
  }

  /** The cursor fast path places exactly where `Block::try_alloc` would in the current block. */
  lemma BumpIsTryAlloc(s: State, size: nat, align: nat)
    requires CursorOk(s) && BlocksOk(s.blocks) && align > 0
    ensures var b := s.blocks[s.current].(offset := s.used);
            && (BumpFits(s, size, align) <==> Fit(b, size, align).Some?)
            && (BumpFits(s, size, align) ==> Fit(b, size, align).value == BumpAddress(s, align) - b.base)
  {}

  /** An aligned address at or after `from`. */
  predicate AlignedFrom(a: nat, from: nat, align: nat)
    requires align > 0
  {
    Aligned(a, align) && from <= a
  }

  /** Some aligned address at or after `from` leaves `size` bytes before `end`. */
  ghost predicate HasPlace(from: nat, align: nat, size: nat, end: nat)
    requires align > 0
  {
    exists a: nat :: AlignedFrom(a, from, align) && a + size <= end
  }

  lemma {:induction false} RoundUpFrom(from: nat, align: nat)
    requires align > 0
    ensures AlignedFrom(RoundUp(from, align), from, align)
    ensures forall a: nat :: AlignedFrom(a, from, align) ==> RoundUp(from, align) <= a
  {
    RoundUpAligned(from, align);
    forall a: nat | AlignedFrom(a, from, align) ensures RoundUp(from, align) <= a {
      RoundUpLeast(from, align, a);
    }
  }

  /** `Block::try_alloc` finds the lowest aligned place, and fails only if no aligned place has room. */
  lemma {:induction false} FitExactly(b: Blk, size: nat, align: nat)
    requires BlkOk(b) && align > 0
    ensures var (fit, from) := (Fit(b, size, align), b.base + b.offset);
            && (fit.Some? <==> HasPlace(from, align, size, b.base + b.capacity))
            && (fit.Some? ==>
                  && AlignedFrom(b.base + fit.value, from, align)
                  && forall a: nat :: AlignedFrom(a, from, align) ==> b.base + fit.value <= a)
  {
    RoundUpFrom(b.base + b.offset, align);
    LeastDecides(RoundUp(b.base + b.offset, align), b.base + b.offset, align, size, b.base + b.capacity);
  }

  /** If any aligned address leaves room, the least one does. */
  lemma {:induction false} LeastDecides(first: nat, from: nat, align: nat, size: nat, end: nat)
    requires align > 0 && AlignedFrom(first, from, align)
    requires forall a: nat :: AlignedFrom(a, from, align) ==> first <= a
    ensures first + size <= end <==> HasPlace(from, align, size, end)
  {}

  /** So does the cursor's fast path. */
  lemma {:induction false} BumpExactly(s: State, size: nat, align: nat)
    requires BlocksOk(s.blocks) && CursorOk(s) && align > 0
    ensures var (b, from) := (s.blocks[s.current], s.blocks[s.current].base + s.used);
            && (BumpFits(s, size, align) <==> HasPlace(from, align, size, b.base + b.capacity))
            && AlignedFrom(BumpAddress(s, align), from, align)
            && forall a: nat :: AlignedFrom(a, from, align) ==> BumpAddress(s, align) <= a
  {
    var b := s.blocks[s.current];
    assert BlkOk(b);
    RoundUpFrom(b.base + s.used, align);
    LeastDecides(BumpAddress(s, align), b.base + s.used, align, size, b.base + b.capacity);
  }

  lemma {:induction false} LargestInMeaning(sizes: seq<nat>, from: nat, to: nat)
    requires to <= |sizes|
    ensures var (best, at) := LargestIn(sizes, from, to);
            && (forall j :: from < j < to ==> sizes[j] <= best)
            && (best == 0 ==> at == from)
            && (best > 0 ==> (from < at < to && sizes[at] == best
                              && forall j :: from < j < at ==> sizes[j] < best))
  {
    if to > from + 1 {
      LargestInMeaning(sizes, from, to - 1);
    }
  }

  /** The cache is kept while it names a block after `i`; otherwise the later blocks are searched. */
  ghost predicate CacheStep(s: State, t: State, i: nat) {
    && (s.largestIdx > i ==> t.largestIdx == s.largestIdx)
    && (s.largestIdx <= i ==> forall j :: i < j < |t.blocks| ==> t.blocks[j].capacity <= t.largest)
  }

  /** Switching to block `idx`, with everything after it empty, always yields a sound cache. */
  lemma SetCurrentCache(s: State, idx: nat)
    requires idx < |s.blocks| && s.largestIdx < |s.blocks|
    requires forall j :: idx < j < |s.blocks| ==> s.blocks[j].offset == 0 && s.blocks[j].capacity > 0
    ensures CacheOk(SetCurrent(s, idx)) && CacheStep(s, SetCurrent(s, idx), idx)
  {
    if s.largestIdx < idx + 1 {
      var rooms := Rooms(s.blocks);
      LargestInMeaning(rooms, idx, |s.blocks|);
      if idx + 1 < |s.blocks| {
        assert rooms[idx + 1] > 0;
      }
    }
  }

  // ----- growth rule -----------------------------------------------------------------------------

  /** Every computed block size covers the worst-case request, so a fresh block always satisfies it. */
  lemma NextBlockCovers(next: nat, size: nat, align: nat)
    requires ValidAlign(align)
    ensures NextBlockFor(next, size, align).None? <==> size + align - 1 > USIZE_MAX
    ensures var want := NextBlockFor(next, size, align);
            want.Some? ==> want.value.0 >= size + align - 1 && want.value.0 >= 2 * align && want.value.1 <= MAX_BLOCK_SIZE
  {}

  lemma MaxIsPow2(align: nat)
    requires IsPow2(align)
    ensures IsPow2(Max(align, MIN_BLOCK_ALIGN)) && IsPow2(MIN_BLOCK_ALIGN)
  {}

  /** The `expect` on a fresh block cannot fail, and the request lands at its base. */
  lemma FreshBlockFits(next: nat, size: nat, align: nat, base: nat)
    requires ValidAlign(align) && NextBlockFor(next, size, align).Some?
    requires FreshBlock([], base, NextBlockFor(next, size, align).value.0, Max(align, MIN_BLOCK_ALIGN))
    ensures var b := Blk(base, NextBlockFor(next, size, align).value.0, Max(align, MIN_BLOCK_ALIGN), 0);
            BlkOk(b) && Fit(b, size, align) == Some(0) && Aligned(base, align)
  {
    NextBlockCovers(next, size, align);
    MaxIsPow2(align);
    AlignedDown(base, Max(align, MIN_BLOCK_ALIGN), align);
    AlignedDown(base, Max(align, MIN_BLOCK_ALIGN), MIN_BLOCK_ALIGN);
    FitEmpty(Blk(base, NextBlockFor(next, size, align).value.0, Max(align, MIN_BLOCK_ALIGN), 0), size, align);
  }

  // ----- steps as relations ----------------------------------------------------------------------
  //
  // Each kind of step is described field by field between two states, so that the proofs below
  // never unfold the step functions themselves.

  /** Everything but the scan cache. */
  ghost predicate Core(s: State) {
    BlocksOk(s.blocks) && CursorOk(s) && LiveOk(s) && AccountOk(s) && DropsOk(s)
  }

  predicate SameLog(s: State, t: State) {
    t.slots == s.slots && t.ran == s.ran && t.serial == s.serial && t.depth == s.depth
  }

  predicate SameCache(s: State, t: State) {
    t.highWater == s.highWater && t.largest == s.largest && t.largestIdx == s.largestIdx
  }

  /** `size` bytes at `start` were bumped from the current block. */
  ghost predicate Bumped(s: State, t: State, start: nat, size: nat, align: nat) {
    && Shape(s) && align > 0 && size > 0
    && s.used <= start && start + size <= s.blocks[s.current].capacity
    && Aligned(s.blocks[s.current].base + start, align)
    && t.blocks == s.blocks && t.current == s.current && t.used == start + size
    && t.nextSize == s.nextSize && t.bytesAllocated == s.bytesAllocated && t.bytesReserved == s.bytesReserved
    && t.live == s.live + [Region(s.current, start, size, align, 0, None)] && t.recounted == s.recounted
    && SameLog(s, t) && SameCache(s, t)
  }

  /** The current block was left for the empty block `i`, which took `size` bytes at its base. */
  ghost predicate Switched(s: State, t: State, i: nat, size: nat, align: nat) {
    && Shape(s) && Shape(t) && s.current < i < |s.blocks|
    && align > 0 && 0 < size <= s.blocks[i].capacity && Aligned(s.blocks[i].base, align)
    && t.blocks == s.blocks[s.current := s.blocks[s.current].(offset := s.used)][i := s.blocks[i].(offset := size)]
    && t.current == i && t.used == size && t.highWater == Max(s.highWater, i)
    && CacheOk(t) && CacheStep(s, t, i)
    && t.bytesAllocated == s.bytesAllocated + s.used + size
    && t.bytesReserved == s.bytesReserved && t.nextSize == s.nextSize
    && t.live == s.live + [Region(i, 0, size, align, size, None)] && t.recounted == s.recounted
    && SameLog(s, t)
  }

  /** The arena `s` with one more, still empty, block. */
  function WithBlock(s: State, b: Blk, next: nat): State {
    s.(blocks := s.blocks + [b], bytesReserved := s.bytesReserved + b.capacity, nextSize := next)
  }

  /** A new block was opened and then switched to. */
  ghost predicate OpenedInto(s: State, t: State, size: nat, align: nat) {
    && |t.blocks| == |s.blocks| + 1
    && var b := t.blocks[|s.blocks|].(offset := 0);
    && BlkOk(b) && FreshBlock(s.blocks, b.base, b.capacity, b.align)
    && Switched(WithBlock(s, b, t.nextSize), t, |s.blocks|, size, align)
  }

  /** A refused request: the cursor is flushed again and the growth setting may change. */
  ghost predicate Refused(s: State, t: State) {
    && Shape(s)
    && t.blocks == s.blocks[s.current := s.blocks[s.current].(offset := s.used)]
    && t.current == s.current && t.used == s.used
    && t.bytesAllocated == s.bytesAllocated + s.used && t.bytesReserved == s.bytesReserved
    && t.live == s.live && t.recounted == s.recounted + s.used
    && SameLog(s, t) && SameCache(s, t)
  }

  /** What one allocation request may do to the arena. */
  ghost predicate Allocated(s: State, t: State, out: Outcome, size: nat, align: nat) {
    match out
    case Placed(i, off) =>
      if i == s.current then Bumped(s, t, off, size, align)
      else if i < |s.blocks| then off == 0 && Switched(s, t, i, size, align)
      else i == |s.blocks| && off == 0 && OpenedInto(s, t, size, align)
    case _ => t == s || Refused(s, t)
  }

  // ----- the step functions meet the relations ---------------------------------------------------

  lemma BumpIsBumped(s: State, size: nat, align: nat)
    requires CursorOk(s) && size > 0 && align > 0 && BumpFits(s, size, align)
    ensures Bumped(s, Bump(s, size, align), BumpAddress(s, align) - s.blocks[s.current].base, size, align)
  {
    RoundUpAligned(s.blocks[s.current].base + s.used, align);
  }

  lemma EnterIsSwitched(s: State, i: nat, size: nat, align: nat)
    requires BlocksOk(s.blocks) && CursorOk(s) && s.current < i < |s.blocks|
    requires align > 0 && 0 < size <= s.blocks[i].capacity && Aligned(s.blocks[i].base, align)
    ensures Switched(s, Enter(Flush(s), i, 0, size, align), i, size, align)
  {
    var f := Flush(s);
    var t := f.(blocks := f.blocks[i := f.blocks[i].(offset := size)],
                bytesAllocated := f.bytesAllocated + size,
                live := f.live + [Region(i, 0, size, align, size, None)]);
    SetCurrentCache(t, i);
  }

  /** First block at or after `i` with room for `size` bytes; the reference for the scan. */
  function FirstFit(blocks: seq<Blk>, size: nat, i: nat): (r: nat)
    requires i <= |blocks|
    ensures i <= r <= |blocks|
    ensures r < |blocks| ==> size <= blocks[r].capacity
    ensures forall j :: i <= j < r ==> blocks[j].capacity < size
    decreases |blocks| - i
  {
    if i == |blocks| || size <= blocks[i].capacity then i else FirstFit(blocks, size, i + 1)
  }

  lemma {:induction false} ScanIsFirstFit(s: State, size: nat, align: nat, i: nat)
    requires Shape(s) && s.current < i <= |s.blocks| && IsPow2(align) && align <= MIN_BLOCK_ALIGN
    requires forall j :: i <= j < |s.blocks| ==> BlkOk(s.blocks[j]) && s.blocks[j].offset == 0
    ensures var k := FirstFit(s.blocks, size, i);
            Scan(Flush(s).blocks, size, align, i) == if k < |s.blocks| then Some(k) else None
    decreases |s.blocks| - i
  {
    if i < |s.blocks| {
      SmallAligned(s.blocks[i].base, align);
      FitEmpty(s.blocks[i], size, align);
      ScanIsFirstFit(s, size, align, i + 1);
    }
  }

  /**
   The scan is never wasted: whenever the cached bound admits a request, with no restriction on
   sizes, a retained block after the current one takes it at its base, and it is the one a naive
   first-fit search over all later blocks would pick.
   */
  lemma ScanNeverWasted(s: State, size: nat, align: nat)
    requires BlocksOk(s.blocks) && CursorOk(s) && CacheOk(s)
    requires 0 < size <= s.largest && IsPow2(align) && align <= MIN_BLOCK_ALIGN
    ensures var i := FirstFit(s.blocks, size, s.current + 1);
            && i < |s.blocks|
            && Scan(Flush(s).blocks, size, align, s.current + 1) == Some(i)
            && Fit(Flush(s).blocks[i], size, align) == Some(0)
            && Aligned(s.blocks[i].base, align)
  {
    ScanIsFirstFit(s, size, align, s.current + 1);
    var i := FirstFit(s.blocks, size, s.current + 1);
    SmallAligned(s.blocks[i].base, align);
    FitEmpty(s.blocks[i], size, align);
  }

  lemma FlushWithBlock(s: State, b: Blk, next: nat)
    requires Shape(s)
    ensures var f := Flush(s).(nextSize := next);
            Flush(WithBlock(s, b, next))
              == f.(blocks := f.blocks + [b], bytesReserved := f.bytesReserved + b.capacity)
  {}

  /** Opening a block, given what the growth rule computed. */
  lemma OpenIsOpened(s: State, size: nat, align: nat, fallible: bool, base: nat)
    requires BlocksOk(s.blocks) && CursorOk(s) && size > 0 && ValidAlign(align)
    requires OsOk(s, size, align, Some(base)) && NextBlockFor(s.nextSize, size, align).Some?
    ensures var (t, out) := OpenBlock(Flush(s), size, align, fallible, Some(base));
            OpenedInto(s, t, size, align) && out == Placed(|s.blocks|, 0)
            && t.nextSize == NextBlockFor(s.nextSize, size, align).value.1
            && t.blocks[|s.blocks|].capacity == NextBlockFor(s.nextSize, size, align).value.0
            && t.blocks[|s.blocks|].base == base && t.blocks[|s.blocks|].align == Max(align, MIN_BLOCK_ALIGN)
  {
    var (capacity, next) := NextBlockFor(s.nextSize, size, align).value;
    var b := Blk(base, capacity, Max(align, MIN_BLOCK_ALIGN), 0);
    FreshBlockFits(s.nextSize, size, align, base);
    FlushWithBlock(s, b, next);
    WithBlockKeepsCursor(s, b, next);
    EnterIsSwitched(WithBlock(s, b, next), |s.blocks|, size, align);
    OpenUnfolds(s, size, align, fallible, base);
  }

  lemma OpenUnfolds(s: State, size: nat, align: nat, fallible: bool, base: nat)
    requires Shape(s) && align > 0 && NextBlockFor(s.nextSize, size, align).Some?
    requires var b := Blk(base, NextBlockFor(s.nextSize, size, align).value.0, Max(align, MIN_BLOCK_ALIGN), 0);
             Fit(b, size, align) == Some(0)
    ensures var b := Blk(base, NextBlockFor(s.nextSize, size, align).value.0, Max(align, MIN_BLOCK_ALIGN), 0);
            OpenBlock(Flush(s), size, align, fallible, Some(base))
              == (Enter(Flush(WithBlock(s, b, NextBlockFor(s.nextSize, size, align).value.1)), |s.blocks|, 0, size, align),
                  Placed(|s.blocks|, 0))
  {
    var (capacity, next) := NextBlockFor(s.nextSize, size, align).value;
    FlushWithBlock(s, Blk(base, capacity, Max(align, MIN_BLOCK_ALIGN), 0), next);
  }

  lemma WithBlockKeepsCursor(s: State, b: Blk, next: nat)
    requires BlocksOk(s.blocks) && CursorOk(s)
    requires BlkOk(b) && b.offset == 0 && FreshBlock(s.blocks, b.base, b.capacity, b.align)
    ensures BlocksOk(WithBlock(s, b, next).blocks) && CursorOk(WithBlock(s, b, next))
  {
    var blocks := s.blocks + [b];
    forall i, j | 0 <= i < j < |blocks| ensures Apart(blocks, i, j) {
      if j < |s.blocks| {
        assert Apart(s.blocks, i, j);
      }
    }
  }

  /** Block the request is served from, or the block count when a new one must be opened. */
  function Target(s: State, size: nat, align: nat): (i: nat)
    requires Shape(s) && align > 0
  {
    if align > MIN_BLOCK_ALIGN then |s.blocks|
    else if BumpFits(s, size, align) then s.current
    else if size <= s.largest then FirstFit(s.blocks, size, s.current + 1)
    else |s.blocks|
  }

  /** Offset the request is placed at: the aligned cursor in the current block, the base elsewhere. */
  function StartIn(s: State, size: nat, align: nat): nat
    requires Shape(s) && align > 0
  {
    if align <= MIN_BLOCK_ALIGN && BumpFits(s, size, align)
    then BumpAddress(s, align) - s.blocks[s.current].base else 0
  }

  /** A fallible request whose end address is not a machine word is turned away at once. */
  predicate TurnedAway(s: State, size: nat, align: nat, fallible: bool)
    requires Shape(s) && align > 0
  {
    fallible && align <= MIN_BLOCK_ALIGN && BumpAddress(s, align) + size > USIZE_MAX
  }

  /** The growth setting once a block size was computed; it advances even if no block is then opened. */
  function NextAfter(s: State, size: nat, align: nat): nat
    requires align > 0
  {
    match NextBlockFor(s.nextSize, size, align)
    case None => s.nextSize
    case Some((_, next)) => next
  }

  /** It is turned away exactly when no aligned address from the cursor on leaves a word for its end. */
  lemma {:induction false} TurnedAwayExactly(s: State, size: nat, align: nat, fallible: bool)
    requires BlocksOk(s.blocks) && CursorOk(s) && align > 0
    ensures var from := s.blocks[s.current].base + s.used;
            TurnedAway(s, size, align, fallible) <==>
              && fallible && align <= MIN_BLOCK_ALIGN
              && forall a: nat :: AlignedFrom(a, from, align) ==> a + size > USIZE_MAX
  {
    BumpExactly(s, size, align);
  }

  /** Which requests the cursor's block serves, and where: all that fit there, at the lowest place. */
  lemma {:induction false} CursorServesExactly(s: State, size: nat, align: nat)
    requires BlocksOk(s.blocks) && CursorOk(s) && 0 < align <= MIN_BLOCK_ALIGN && size > 0
    ensures var (b, from) := (s.blocks[s.current], s.blocks[s.current].base + s.used);
            && (Target(s, size, align) == s.current <==> HasPlace(from, align, size, b.base + b.capacity))
            && (Target(s, size, align) == s.current ==>
                  && AlignedFrom(b.base + StartIn(s, size, align), from, align)
                  && forall a: nat :: AlignedFrom(a, from, align) ==> b.base + StartIn(s, size, align) <= a)
  {
    BumpExactly(s, size, align);
  }

  /** What a step does to the growth setting, and the block it opens. */
  predicate GrowthStep(s: State, t: State, out: Outcome, size: nat, align: nat)
    requires align > 0
  {
    var want := NextBlockFor(s.nextSize, size, align);
    if out.Placed? && out.blk == |s.blocks| then
      && want.Some? && |s.blocks| < |t.blocks|
      && t.nextSize == want.value.1 && t.blocks[|s.blocks|].capacity == want.value.0
      && t.blocks[|s.blocks|].align == Max(align, MIN_BLOCK_ALIGN)
    else if out.Placed? then t.nextSize == s.nextSize
    else t == s || t.nextSize == NextAfter(s, size, align)
  }

  lemma OpenIsRefused(s: State, size: nat, align: nat, fallible: bool, os: Option<nat>)
    requires Shape(s) && ValidAlign(align)
    requires NextBlockFor(s.nextSize, size, align).None? || os.None?
    ensures var (t, out) := OpenBlock(Flush(s), size, align, fallible, os);
            Refused(s, t.(recounted := s.recounted + s.used)) && !out.Placed?
            && (out == Panicked <==> NextBlockFor(s.nextSize, size, align).None? || !fallible)
            && t.nextSize == NextAfter(s, size, align)
  {}

  /** The growth rule yields a block size and the system allocator grants the block. */
  predicate CanOpen(s: State, size: nat, align: nat, os: Option<nat>)
    requires align > 0
  {
    NextBlockFor(s.nextSize, size, align).Some? && os.Some?
  }

  /** The request is granted: not turned away, and served by a retained block or by a new one. */
  predicate Grants(s: State, size: nat, align: nat, fallible: bool, os: Option<nat>)
    requires Shape(s) && align > 0
  {
    && !TurnedAway(s, size, align, fallible)
    && (Target(s, size, align) < |s.blocks| || CanOpen(s, size, align, os))
  }

  lemma SlowScans(s: State, size: nat, align: nat, fallible: bool, os: Option<nat>)
    requires BlocksOk(s.blocks) && CursorOk(s) && CacheOk(s)
    requires 0 < size <= s.largest && IsPow2(align) && align <= MIN_BLOCK_ALIGN
    ensures var i := FirstFit(s.blocks, size, s.current + 1);
            && s.current < i < |s.blocks|
            && Slow(s, size, align, fallible, os) == (Enter(Flush(s), i, 0, size, align), Placed(i, 0))
            && Aligned(s.blocks[i].base, align)
  {
    ScanNeverWasted(s, size, align);
  }

  lemma SlowOpens(s: State, size: nat, align: nat, fallible: bool, os: Option<nat>)
    requires Shape(s) && align > 0 && (align > MIN_BLOCK_ALIGN || size > s.largest)
    ensures var (t, out) := OpenBlock(Flush(s), size, align, fallible, os);
            Slow(s, size, align, fallible, os)
              == if out.Placed? then (t, out) else (t.(recounted := s.recounted + s.used), out)
  {}

  lemma SlowScanMeaning(s: State, size: nat, align: nat, fallible: bool, os: Option<nat>)
    requires BlocksOk(s.blocks) && CursorOk(s) && CacheOk(s)
    requires 0 < size <= s.largest && IsPow2(align) && align <= MIN_BLOCK_ALIGN
    ensures var (t, out) := Slow(s, size, align, fallible, os);
            && out == Placed(FirstFit(s.blocks, size, s.current + 1), 0)
            && s.current < out.blk < |s.blocks| && Allocated(s, t, out, size, align)
  {
    SlowScans(s, size, align, fallible, os);
    EnterIsSwitched(s, FirstFit(s.blocks, size, s.current + 1), size, align);
  }

  lemma SlowOpenMeaning(s: State, size: nat, align: nat, fallible: bool, os: Option<nat>)
    requires BlocksOk(s.blocks) && CursorOk(s)
    requires size > 0 && ValidAlign(align) && (align > MIN_BLOCK_ALIGN || size > s.largest)
    requires OsOk(s, size, align, os)
    ensures var (t, out) := Slow(s, size, align, fallible, os);
            && Allocated(s, t, out, size, align) && GrowthStep(s, t, out, size, align)
            && (out.Placed? <==> CanOpen(s, size, align, os)) && (out.Placed? ==> out == Placed(|s.blocks|, 0))
            && (out.Placed? ==> |s.blocks| < |t.blocks| && t.blocks[|s.blocks|].base == os.value)
            && (out.Panicked? <==> NextBlockFor(s.nextSize, size, align).None? || (!fallible && os.None?))
            && (!out.Placed? ==> Refused(s, t) && t.nextSize == NextAfter(s, size, align))
  {
    SlowOpens(s, size, align, fallible, os);
    if CanOpen(s, size, align, os) {
      OpenIsOpened(s, size, align, fallible, os.value);
    } else {
      OpenIsRefused(s, size, align, fallible, os);
    }
  }

  /**
   Which request is granted, where, and what the step changes. A request that no retained block
   takes panics exactly when the size computation overflows, or when the system allocator refuses
   and the caller used the infallible variant: so a fallible request above alignment 64 can still
   panic.
   */
  lemma AllocMeaning(s: State, size: nat, align: nat, fallible: bool, os: Option<nat>)
    requires BlocksOk(s.blocks) && CursorOk(s) && CacheOk(s) && size > 0 && ValidAlign(align)
    requires Target(s, size, align) == |s.blocks| ==> OsOk(s, size, align, os)
    ensures var (t, out) := Alloc(s, size, align, fallible, os);
            Allocated(s, t, out, size, align) && GrowthStep(s, t, out, size, align)
    ensures var out := Alloc(s, size, align, fallible, os).1;
            out.Placed? ==> out == Placed(Target(s, size, align), StartIn(s, size, align))
    ensures var out := Alloc(s, size, align, fallible, os).1;
            out.Placed? <==> (!TurnedAway(s, size, align, fallible)
                              && (Target(s, size, align) < |s.blocks| || CanOpen(s, size, align, os)))
    ensures var out := Alloc(s, size, align, fallible, os).1;
            out.Panicked? <==> (!TurnedAway(s, size, align, fallible) && Target(s, size, align) == |s.blocks|
                                && (NextBlockFor(s.nextSize, size, align).None? || (!fallible && os.None?)))
    ensures var (t, out) := Alloc(s, size, align, fallible, os);
            !out.Placed? ==> if TurnedAway(s, size, align, fallible) then t == s
                             else Refused(s, t) && t.nextSize == NextAfter(s, size, align)
    ensures var out := Alloc(s, size, align, fallible, os).1;
            out.Placed? && align > MIN_BLOCK_ALIGN ==> out == Placed(|s.blocks|, 0)
  {
    if TurnedAway(s, size, align, fallible) {
    } else if align <= MIN_BLOCK_ALIGN && BumpFits(s, size, align) {
      BumpIsBumped(s, size, align);
    } else if align <= MIN_BLOCK_ALIGN && size <= s.largest {
      SlowScanMeaning(s, size, align, fallible, os);
    } else {
      SlowOpenMeaning(s, size, align, fallible, os);
    }
  }

  // ----- every relation keeps the invariant ------------------------------------------------------

  /** Appending a region that starts at or after the cursor keeps the live list sound. */
  lemma AppendLive(s: State, t: State, r: Region)
    requires LiveOk(s) && CursorOk(s) && t.live == s.live + [r]
    requires |t.blocks| >= |s.blocks| && s.current <= t.current
    requires forall j :: 0 <= j < |s.blocks| ==> t.blocks[j].base == s.blocks[j].base
    requires forall j :: 0 <= j <= s.current ==> Used(s, j) <= Used(t, j)
    requires InBlock(t, r) && (r.blk > s.current || (r.blk == s.current && s.used <= r.off))
    ensures LiveOk(t)
  {
    forall k | 0 <= k < |t.live| ensures InBlock(t, t.live[k]) {
      if k < |s.live| {
        assert InBlock(s, s.live[k]);
      }
    }
    forall i, k | 0 <= i < k < |t.live| ensures Ordered(t.live, i, k) {
      if k < |s.live| {
        assert Ordered(s.live, i, k);
      } else {
        assert InBlock(s, s.live[i]);
      }
    }
  }

  /** The live list survives any step that keeps it and every block's used bytes. */
  lemma KeepLive(s: State, t: State)
    requires LiveOk(s) && t.live == s.live && |t.blocks| >= |s.blocks| && t.current == s.current
    requires forall j :: 0 <= j < |s.blocks| ==> t.blocks[j].base == s.blocks[j].base && Used(s, j) <= Used(t, j)
    ensures LiveOk(t)
  {}

  lemma BumpedKeepsInv(s: State, t: State, start: nat, size: nat, align: nat)
    requires Inv(s) && Bumped(s, t, start, size, align)
    ensures Inv(t) && InUse(t) >= InUse(s) + size
  {
    var r := Region(s.current, start, size, align, 0, None);
    assert InBlock(t, r);
    AppendLive(s, t, r);
    LivePush(s.live, r);
  }

  lemma SwitchedPlaces(s: State, t: State, i: nat, size: nat, align: nat)
    requires BlocksOk(s.blocks) && CursorOk(s) && LiveOk(s) && Switched(s, t, i, size, align)
    ensures BlocksOk(t.blocks) && CursorOk(t) && LiveOk(t)
  {
    SameBlocksOk(s.blocks, t.blocks);
    var r := Region(i, 0, size, align, size, None);
    assert InBlock(t, r);
    AppendLive(s, t, r);
  }

  lemma SwitchedAccounts(s: State, t: State, i: nat, size: nat, align: nat)
    requires BlocksOk(s.blocks) && CursorOk(s) && AccountOk(s) && DropsOk(s)
    requires Switched(s, t, i, size, align)
    ensures AccountOk(t) && DropsOk(t) && InUse(t) == InUse(s) + size
  {
    SwitchedInUse(s, t, i, size, align);
    SameBlocksOk(s.blocks, t.blocks);
    LivePush(s.live, Region(i, 0, size, align, size, None));
  }

  lemma {:induction false} SwitchedInUse(s: State, t: State, i: nat, size: nat, align: nat)
    requires CursorOk(s) && Switched(s, t, i, size, align)
    ensures InUse(t) == InUse(s) + size
  {
    SumOffsetsSame(s.blocks, t.blocks, s.current);
    SumOffsetsZeros(t.blocks, s.current + 1, i);
  }

  lemma WithBlockKeepsCore(s: State, b: Blk, next: nat)
    requires Core(s) && BlkOk(b) && b.offset == 0 && FreshBlock(s.blocks, b.base, b.capacity, b.align)
    ensures Core(WithBlock(s, b, next)) && InUse(WithBlock(s, b, next)) == InUse(s)
  {
    var t := WithBlock(s, b, next);
    WithBlockKeepsCursor(s, b, next);
    KeepLive(s, t);
    TotalCapacityPush(s.blocks, b);
    SumOffsetsSame(s.blocks, t.blocks, s.current);
  }

  lemma OpenedKeepsInv(s: State, t: State, size: nat, align: nat)
    requires Core(s) && OpenedInto(s, t, size, align)
    ensures Inv(t) && InUse(t) == InUse(s) + size
  {
    var b := t.blocks[|s.blocks|].(offset := 0);
    var o := WithBlock(s, b, t.nextSize);
    WithBlockKeepsCore(s, b, t.nextSize);
    SwitchedPlaces(o, t, |s.blocks|, size, align);
    SwitchedAccounts(o, t, |s.blocks|, size, align);
  }

  lemma RefusedKeepsInv(s: State, t: State)
    requires Inv(s) && Refused(s, t)
    ensures Inv(t) && InUse(t) == InUse(s)
  {
    SameBlocksOk(s.blocks, t.blocks);
    KeepLive(s, t);
    SumOffsetsSame(s.blocks, t.blocks, s.current);
  }

  /** Every allocation request, granted or refused, keeps the invariant. */
  lemma AllocatedKeepsInv(s: State, t: State, out: Outcome, size: nat, align: nat)
    requires Inv(s) && Allocated(s, t, out, size, align)
    ensures Inv(t)
    ensures InUse(t) >= InUse(s) + if out.Placed? then size else 0
  {
    match out
    case Placed(i, off) =>
      if i == s.current {
        BumpedKeepsInv(s, t, off, size, align);
      } else if i < |s.blocks| {
        SwitchedPlaces(s, t, i, size, align);
        SwitchedAccounts(s, t, i, size, align);
      } else {
        OpenedKeepsInv(s, t, size, align);
      }
    case _ =>
      if t != s {
        RefusedKeepsInv(s, t);
      }
  }

  /** Replacing the newest region: it may grow in place, and it may gain a destructor slot. */
  ghost predicate Renewed(s: State, t: State, r: Region) {
    && Shape(s) && s.live != []
    && var n := |s.live| - 1;
    && r == s.live[n].(size := r.size, slot := r.slot) && s.live[n].size <= r.size
    && r.off + r.size <= s.blocks[s.current].capacity
    && (s.live[n].slot.None? || (r.slot == s.live[n].slot))
    && t.live == s.live[n := r] && t.used == r.off + r.size && t.blocks == s.blocks && t.current == s.current
    && t.slots == s.slots + (if s.live[n].slot.None? && r.slot.Some? then [r.slot.value] else [])
    && t.bytesAllocated == s.bytesAllocated && t.bytesReserved == s.bytesReserved && t.recounted == s.recounted
    && t.ran == s.ran && t.depth == s.depth && t.nextSize == s.nextSize && SameCache(s, t)
  }

  lemma RenewedKeepsInv(s: State, t: State, r: Region)
    requires Inv(s) && Renewed(s, t, r)
    ensures Inv(t) && InUse(t) == InUse(s) + (r.size - s.live[|s.live| - 1].size)
  {
    RenewedLive(s, t, r);
    RenewedAccounts(s, t, r);
  }

  lemma RenewedLive(s: State, t: State, r: Region)
    requires CursorOk(s) && LiveOk(s) && Renewed(s, t, r)
    ensures LiveOk(t)
  {
    forall k | 0 <= k < |t.live| ensures InBlock(t, t.live[k]) {
      assert InBlock(s, s.live[k]);
    }
    forall i, k | 0 <= i < k < |t.live| ensures Ordered(t.live, i, k) {
      assert Ordered(s.live, i, k);
    }
  }

  lemma RenewedAccounts(s: State, t: State, r: Region)
    requires CursorOk(s) && AccountOk(s) && DropsOk(s) && Renewed(s, t, r)
    ensures AccountOk(t) && DropsOk(t)
  {}

  lemma RegisterIsRenewed(s: State, kind: DropKind)
    requires Inv(s) && s.live != [] && s.live[|s.live| - 1].slot.None?
    ensures var t := Register(s, kind); t == s || Renewed(s, t, t.live[|s.live| - 1])
  {}

  lemma GrowIsRenewed(s: State, size: nat)
    requires Inv(s) && s.live != []
    requires var r := s.live[|s.live| - 1]; r.size <= size && r.off + size <= s.blocks[s.current].capacity
    ensures Renewed(s, GrowNewest(s, size), s.live[|s.live| - 1].(size := size))
  {}

  lemma GrowKeepsInv(s: State, size: nat)
    requires Inv(s) && s.live != []
    requires var r := s.live[|s.live| - 1]; r.size <= size && r.off + size <= s.blocks[s.current].capacity
    ensures Inv(GrowNewest(s, size))
  {
    GrowIsRenewed(s, size);
    RenewedKeepsInv(s, GrowNewest(s, size), s.live[|s.live| - 1].(size := size));
  }

  lemma WithCapacityInv(initial: nat, base: nat)
    requires FreshBlock([], base, Max(initial, MIN_BLOCK_SIZE), MIN_BLOCK_ALIGN)
    ensures Inv(WithCapacity(initial, base))
  {}

  // ----- the invariant by name -------------------------------------------------------------------

  datatype Clause = BlocksClause | CursorClause | CacheClause | LiveClause | AccountClause | DropsClause

  ghost predicate Says(c: Clause, s: State) {
    match c
    case BlocksClause => BlocksOk(s.blocks)
    case CursorClause => CursorOk(s)
    case CacheClause => CacheOk(s)
    case LiveClause => LiveOk(s)
    case AccountClause => AccountOk(s)
    case DropsClause => DropsOk(s)
  }

  /** The invariant as a quantifier over its clauses, which proofs about objects carry unopened. */
  ghost predicate Wellformed(s: State) {
    forall c: Clause :: Says(c, s)
  }

  lemma WellformedMeans(s: State)
    ensures Wellformed(s) <==> Inv(s)
  {
    if Wellformed(s) {
      assert Says(BlocksClause, s) && Says(CursorClause, s) && Says(CacheClause, s);
      assert Says(LiveClause, s) && Says(AccountClause, s) && Says(DropsClause, s);
    }
  }

  lemma AllocKeepsWellformed(s: State, size: nat, align: nat, fallible: bool, os: Option<nat>)
    requires Wellformed(s) && size > 0 && ValidAlign(align) && Shape(s) && OsOk(s, size, align, os)
    ensures var (t, out) := Alloc(s, size, align, fallible, os);
            && Wellformed(t) && SameLog(s, t)
            && (out.Placed? ==> t.live != [] && t.live[|t.live| - 1].slot.None? && t.live[..|t.live| - 1] == s.live
                                && t.live[|t.live| - 1].blk == out.blk && t.live[|t.live| - 1].off == out.off
                                && t.live[|t.live| - 1].size == size)
            && (!out.Placed? ==> t.live == s.live)
  {
    WellformedMeans(s);
    AllocMeaning(s, size, align, fallible, os);
    var (t, out) := Alloc(s, size, align, fallible, os);
    AllocatedKeepsInv(s, t, out, size, align);
    WellformedMeans(t);
  }

  lemma GrowKeepsWellformed(s: State, size: nat)
    requires Wellformed(s) && Shape(s) && s.live != [] && s.live[|s.live| - 1].size <= size
    requires s.live[|s.live| - 1].off + size <= s.blocks[s.current].capacity
    ensures Wellformed(GrowNewest(s, size))
  {
    WellformedMeans(s);
    GrowKeepsInv(s, size);
    WellformedMeans(GrowNewest(s, size));
  }
}

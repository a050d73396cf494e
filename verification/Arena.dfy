/**
 The imperative arena of src/arena/allocator.rs and its blocks (src/arena/block.rs). The ghost
 field `model` is the abstract state; `Valid()` ties every real field to it and every method is
 proved to move it by the corresponding step of `ArenaModel`.
 */
module Arenas {
  import opened Bits
  import opened Wrappers
  import opened Drops
  import opened ArenaModel
  import opened ArenaInvariants
  import opened Rewinding
  import opened Replay
  import opened Accounting

  class Block {
    var offset: nat
    const capacity: nat
    const base: nat
    const align: nat
    const data: array<byte>

    constructor (base: nat, capacity: nat, align: nat)
      ensures View() == Blk(base, capacity, align, 0)
      ensures data.Length == capacity && fresh(data)
    {
      this.offset := 0;
      this.capacity := capacity;
      this.base := base;
      this.align := align;
      this.data := new byte[capacity];
    }

    ghost function View(): Blk
      reads this
    {
      Blk(base, capacity, align, offset)
    }

    /** Places `size` bytes at the aligned end of the used part, if they fit. */
    method TryAlloc(size: nat, align: nat) returns (r: Option<(nat, nat)>)
      requires IsPow2(align) && base + offset + align - 1 <= USIZE_MAX
      modifies `offset
      ensures Fit(old(View()), size, align).None? ==> r == None && offset == old(offset)
      ensures Fit(old(View()), size, align).Some? ==>
                var start := Fit(old(View()), size, align).value;
                r == Some((start, start + size - old(offset))) && offset == start + size
    {
      var aligned := AlignUp(base + offset, align);
      var newOffset := aligned - base + size;
      if newOffset > USIZE_MAX || newOffset > capacity {
        return None;
      }
      var delta := newOffset - offset;
      offset := newOffset;
      r := Some((aligned - base, delta));
    }
  }

  /** The blocks and their memory. */
  ghost function Owned(blocks: seq<Block>): set<object> {
    (set b | b in blocks :: b as object) + (set b | b in blocks :: b.data as object)
  }

  /** No two blocks are the same object or share their memory. */
  ghost predicate AllDistinct(blocks: seq<Block>) {
    |blocks| == 0 ||
    var n := |blocks| - 1;
    && (forall i :: 0 <= i < n ==> blocks[i] != blocks[n] && blocks[i].data != blocks[n].data)
    && AllDistinct(blocks[..n])
  }

  lemma {:induction false} OthersDiffer(blocks: seq<Block>, c: nat)
    requires c < |blocks| && AllDistinct(blocks)
    ensures forall i :: 0 <= i < |blocks| && i != c ==> blocks[i] != blocks[c] && blocks[i].data != blocks[c].data
    decreases |blocks|
  {
    var n := |blocks| - 1;
    if c < n {
      OthersDiffer(blocks[..n], c);
      forall i | 0 <= i < |blocks| && i != c ensures blocks[i] != blocks[c] && blocks[i].data != blocks[c].data {
        assert i < n ==> blocks[..n][i] == blocks[i];
      }
    }
  }

  /** The blocks, and their memory sizes, are those described by `views`. */
  ghost predicate Mirrors(blocks: seq<Block>, views: seq<Blk>)
    reads blocks
  {
    && |blocks| == |views|
    && (|blocks| == 0 ||
        var n := |blocks| - 1;
        && blocks[n].View() == views[n] && blocks[n].data.Length == blocks[n].capacity
        && Mirrors(blocks[..n], views[..n]))
  }

  lemma {:induction false} MirrorsMeans(blocks: seq<Block>, views: seq<Blk>)
    requires |blocks| == |views|
    ensures Mirrors(blocks, views) <==>
            forall i :: 0 <= i < |blocks| ==> blocks[i].View() == views[i] && blocks[i].data.Length == blocks[i].capacity
    decreases |blocks|
  {
    if |blocks| > 0 {
      var n := |blocks| - 1;
      MirrorsMeans(blocks[..n], views[..n]);
      assert forall i :: 0 <= i < n ==> blocks[..n][i] == blocks[i] && views[..n][i] == views[i];
    }
  }

  predicate OffsetsFit(views: seq<Blk>) {
    forall i :: 0 <= i < |views| ==> views[i].offset <= views[i].capacity
  }

  /** The fields of the source's `Checkpoint`. */
  datatype Mark = Mark(block: nat, offset: nat, bytes: nat, dropLen: nat)

  function MarkOf(s: State): Mark {
    Mark(s.current, s.used, Reported(s), |s.slots|)
  }

  datatype Stats = Stats(bytesAllocated: nat, bytesReserved: nat, blockCount: nat)

  /** The clauses that tie an arena's objects and fields to its abstract state. */
  datatype Link = BlocksTied | CountersTied | CursorTied | RegistryTied

  class Arena {
    var blocks: seq<Block>
    var current: nat
    var nextBlockSize: nat
    var bytesAllocated: nat
    var bytesReserved: nat
    var txnDepth: nat
    const dropRegistry: DropRegistry
    var serial: nat
    var curBase: nat
    var curPtr: nat
    var curEnd: nat
    var highWaterMark: nat
    var largestRemaining: nat
    var largestRemainingIdx: nat
    ghost var model: State

    ghost predicate BlocksLinked()
      reads this, blocks
    {
      Mirrors(blocks, model.blocks) && AllDistinct(blocks)
    }

    ghost predicate CountersLinked()
      reads this
    {
      && nextBlockSize == model.nextSize && bytesAllocated == model.bytesAllocated
      && bytesReserved == model.bytesReserved && txnDepth == model.depth && serial == model.serial
      && highWaterMark == model.highWater && largestRemainingIdx == model.largestIdx < |blocks|
    }

    ghost predicate CursorLinked()
      reads this
    {
      && model.current == current < |blocks|
      && curBase == blocks[current].base && curEnd == curBase + blocks[current].capacity
      && curPtr == curBase + model.used && largestRemaining == model.largest
    }

    ghost predicate RegistryLinked()
      reads this, dropRegistry, dropRegistry.Repr
    {
      && dropRegistry.Valid() && this !in dropRegistry.Repr && Owned(blocks) !! dropRegistry.Repr
      && dropRegistry.Slots() == model.slots && dropRegistry.ran == model.ran
    }

    ghost predicate LinkSays(c: Link)
      reads this, blocks, dropRegistry, dropRegistry.Repr
    {
      match c
      case BlocksTied => BlocksLinked()
      case CountersTied => CountersLinked()
      case CursorTied => CursorLinked()
      case RegistryTied => RegistryLinked()
    }

    /** Everything but the destructor log is tied to the abstract state. */
    ghost predicate Tied()
      reads this, blocks, dropRegistry, dropRegistry.Repr
    {
      forall c: Link :: c != RegistryTied ==> LinkSays(c)
    }

    lemma TiedMeans()
      ensures Tied() <==> BlocksLinked() && CountersLinked() && CursorLinked()
    {
      if Tied() {
        assert LinkSays(BlocksTied) && LinkSays(CountersTied) && LinkSays(CursorTied);
      }
    }

    lemma BlockAt(i: nat)
      requires Tied() && i < |blocks|
      ensures |blocks| == |model.blocks| && blocks[i].View() == model.blocks[i]
    {
      TiedMeans();
      MirrorsMeans(blocks, model.blocks);
    }

    /** Scalars agree with the abstract state. */
    lemma FieldsAgree()
      requires Tied()
      ensures Shape(model) && |blocks| == |model.blocks| && current == model.current
      ensures curPtr == curBase + model.used && largestRemaining == model.largest && txnDepth == model.depth
      ensures curBase == model.blocks[current].base && curEnd == curBase + model.blocks[current].capacity
      ensures bytesAllocated == model.bytesAllocated && bytesReserved == model.bytesReserved && serial == model.serial
    {
      TiedMeans();
      BlockAt(current);
    }

    ghost predicate Valid()
      reads this, blocks, dropRegistry, dropRegistry.Repr
    {
      (forall c: Link :: LinkSays(c)) && Wellformed(model)
    }

    lemma ValidMeans()
      ensures Valid() <==> Tied() && RegistryLinked() && Wellformed(model)
    {
      if Tied() && RegistryLinked() {
        forall c: Link ensures LinkSays(c) {}
      }
      if Valid() {
        assert LinkSays(RegistryTied);
      }
    }

    constructor WithCapacity(initial: nat, base: nat)
      requires FreshBlock([], base, Max(initial, MIN_BLOCK_SIZE), MIN_BLOCK_ALIGN)
      ensures Valid() && model == ArenaModel.WithCapacity(initial, base)
      ensures fresh(Owned(blocks)) && fresh(dropRegistry.Repr) && |blocks| == 1
    {
      var size := Max(initial, MIN_BLOCK_SIZE);
      var block := new Block(base, size, MIN_BLOCK_ALIGN);
      blocks := [block];
      current := 0;
      nextBlockSize := Min(Min(size * 2, USIZE_MAX), MAX_BLOCK_SIZE);
      bytesAllocated := 0;
      bytesReserved := size;
      txnDepth := 0;
      dropRegistry := new DropRegistry();
      serial := 0;
      curBase, curPtr, curEnd := base, base, base + size;
      highWaterMark, largestRemaining, largestRemainingIdx := 0, 0, 0;
      model := ArenaModel.WithCapacity(initial, base);
      new;
      assert blocks[..0] == [] && AllDistinct(blocks[..0]);
      MirrorsMeans(blocks, model.blocks);
      assert BlocksLinked() && CountersLinked() && CursorLinked() && RegistryLinked();
      WithCapacityInv(initial, base);
      WellformedMeans(model);
    }

    // ----- scan cache and cursor -----------------------------------------------------------------

    method ComputeLargestRemaining(from: nat) returns (best: nat)
      requires BlocksLinked()
      requires OffsetsFit(model.blocks)
      modifies `largestRemainingIdx
      ensures (best, largestRemainingIdx) == LargestIn(Rooms(model.blocks), from, |model.blocks|)
    {
      best := 0;
      var at := from;
      MirrorsMeans(blocks, model.blocks);
      ghost var rooms := Rooms(model.blocks);
      var i := from + 1;
      while i < |blocks|
        invariant (best, at) == LargestIn(rooms, from, if i < |blocks| then i else |blocks|)
      {
        var rem := blocks[i].capacity - blocks[i].offset;
        assert rooms[i] == rem;
        if rem > best {
          best, at := rem, i;
        }
        i := i + 1;
      }
      largestRemainingIdx := at;
    }

    /** Keeps the cached block if it still lies after `idx`, else searches for the largest one. */
    method UpdateCache(idx: nat)
      requires BlocksLinked() && idx < |blocks| && largestRemainingIdx == model.largestIdx < |blocks|
      requires OffsetsFit(model.blocks)
      modifies `largestRemaining, `largestRemainingIdx
      ensures (largestRemaining, largestRemainingIdx) == CacheFor(model.blocks, model.largestIdx, idx)
    {
      MirrorsMeans(blocks, model.blocks);
      if largestRemainingIdx >= idx + 1 {
        var b := blocks[largestRemainingIdx];
        largestRemaining := b.capacity - b.offset;
      } else {
        var best := ComputeLargestRemaining(idx);
        largestRemaining := best;
      }
    }

    method MoveCursor(idx: nat)
      requires Mirrors(blocks, model.blocks) && idx < |blocks|
      modifies `current, `highWaterMark, `curBase, `curPtr, `curEnd
      ensures current == idx && highWaterMark == Max(old(highWaterMark), idx)
      ensures curBase == blocks[idx].base && curEnd == curBase + blocks[idx].capacity
      ensures curPtr == curBase + model.blocks[idx].offset
    {
      MirrorsMeans(blocks, model.blocks);
      var block := blocks[idx];
      current := idx;
      if idx > highWaterMark {
        highWaterMark := idx;
      }
      curBase := block.base;
      curPtr := block.base + block.offset;
      curEnd := block.base + block.capacity;
    }

    /** Makes `idx` the current block; only the cursor and the cache move. */
    method SetCurrentBlock(idx: nat)
      requires BlocksLinked() && CountersLinked() && idx < |blocks| && OffsetsFit(model.blocks)
      modifies `current, `highWaterMark, `curBase, `curPtr, `curEnd, `largestRemaining, `largestRemainingIdx, `model
      ensures Tied() && model == SetCurrent(old(model), idx)
    {
      MoveCursor(idx);
      UpdateCache(idx);
      CacheInRange(model.blocks, model.largestIdx, idx);
      model := SetCurrent(model, idx);
      TiedMeans();
    }

    // ----- slow path -----------------------------------------------------------------------------

    /** Flushes the cursor into the current block's offset and the byte counter. */
    method FinishSlowPath()
      requires Tied()
      modifies `bytesAllocated, `model, blocks
      ensures Tied() && Shape(old(model)) && model == Flush(old(model))
    {
      TiedMeans();
      bytesAllocated := bytesAllocated + (curPtr - curBase);
      OthersDiffer(blocks, current);
      MirrorsMeans(blocks, model.blocks);
      blocks[current].offset := curPtr - curBase;
      model := Flush(model);
      MirrorsMeans(blocks, model.blocks);
      TiedMeans();
    }

    /** The growth rule; `None` is the overflow panic. */
    method NextBlockSize(size: nat, align: nat) returns (r: Option<nat>)
      requires Tied() && align > 0
      modifies `nextBlockSize, `model
      ensures Tied()
      ensures NextBlockFor(old(model.nextSize), size, align).None? ==> r == None && model == old(model)
      ensures NextBlockFor(old(model.nextSize), size, align).Some? ==>
                var (capacity, next) := NextBlockFor(old(model.nextSize), size, align).value;
                r == Some(capacity) && model == old(model).(nextSize := next)
    {
      TiedMeans();
      var worst := size + (align - 1);
      if worst > USIZE_MAX {
        return None;
      }
      var rounded := NextPow2(Max(Max(nextBlockSize, worst), align * 2));
      if rounded > USIZE_MAX {
        rounded := USIZE_MAX;
      }
      rounded := Max(Max(Min(rounded, MAX_BLOCK_SIZE), worst), align * 2);
      nextBlockSize := Min(Min(rounded + rounded / 2, USIZE_MAX), MAX_BLOCK_SIZE);
      model := model.(nextSize := nextBlockSize);
      TiedMeans();
      r := Some(rounded);
    }

    /** Appends an empty block for which the system allocator answered `base`. */
    method PushBlock(base: nat, capacity: nat, align: nat)
      requires Tied()
      modifies `blocks, `bytesReserved, `model
      ensures Tied() && |old(blocks)| + 1 == |blocks| == |model.blocks| && blocks[..|blocks| - 1] == old(blocks)
      ensures fresh(blocks[|blocks| - 1]) && fresh(blocks[|blocks| - 1].data)
      ensures model == old(model).(blocks := old(model).blocks + [Blk(base, capacity, align, 0)],
                                   bytesReserved := old(model).bytesReserved + capacity)
    {
      TiedMeans();
      var block := new Block(base, capacity, align);
      bytesReserved := bytesReserved + capacity;
      blocks := blocks + [block];
      model := model.(blocks := model.blocks + [Blk(base, capacity, align, 0)],
                      bytesReserved := model.bytesReserved + capacity);
      assert blocks[..|blocks| - 1] == old(blocks) && model.blocks[..|blocks| - 1] == old(model.blocks);
      TiedMeans();
    }

    /** Bumps block `i` if the request fits, and makes it current. */
    method TryEnter(i: nat, size: nat, align: nat) returns (r: Option<nat>)
      requires Tied() && BlocksOk(model.blocks)
      requires i < |blocks| == |model.blocks| && IsPow2(align) && align <= model.blocks[i].align
      modifies `bytesAllocated, `current, `highWaterMark, `curBase, `curPtr, `curEnd
      modifies `largestRemaining, `largestRemainingIdx, `model, {blocks[i]}
      ensures Tied()
      ensures r == Fit(old(model.blocks[i]), size, align)
      ensures r.None? ==> model == old(model)
      ensures r.Some? ==> old(model.largestIdx) < |blocks| && model == Enter(old(model), i, r.value, size, align)
    {
      TiedMeans();
      MirrorsMeans(blocks, model.blocks);
      assert BlkOk(model.blocks[i]);
      OthersDiffer(blocks, i);
      var placed := blocks[i].TryAlloc(size, align);
      if placed.None? {
        TiedMeans();
        return None;
      }
      r := Some(placed.value.0);
      MirrorsMeans(blocks, model.blocks[i := model.blocks[i].(offset := placed.value.0 + size)]);
      Adopt(i, placed.value.0, placed.value.1, size, align);
    }

    /** Second half of `TryEnter`: block `i` has been bumped by `delta`; account for it and switch. */
    method Adopt(i: nat, start: nat, delta: nat, size: nat, align: nat)
      requires |blocks| == |model.blocks| && i < |blocks| && BlocksOk(model.blocks)
      requires model.blocks[i].offset <= start && start + size <= model.blocks[i].capacity
      requires delta == start + size - model.blocks[i].offset
      requires CountersLinked()
      requires AllDistinct(blocks)
      requires Mirrors(blocks, model.blocks[i := model.blocks[i].(offset := start + size)])
      modifies `bytesAllocated, `current, `highWaterMark, `curBase, `curPtr, `curEnd
      modifies `largestRemaining, `largestRemainingIdx, `model
      ensures Tied() && old(model.largestIdx) < |blocks| && model == Enter(old(model), i, start, size, align)
    {
      bytesAllocated := bytesAllocated + delta;
      model := model.(blocks := model.blocks[i := model.blocks[i].(offset := start + size)],
                      bytesAllocated := bytesAllocated,
                      live := model.live + [Region(i, start, size, align, delta, None)]);
      forall j | 0 <= j < |blocks| ensures model.blocks[j].offset <= model.blocks[j].capacity {
        assert BlkOk(old(model.blocks[j]));
      }
      SetCurrentBlock(i);
    }

    /** Blocks are only ever appended, and appended blocks are new. */
    twostate predicate Extended(before: seq<Block>)
      reads this
    {
      before <= blocks && forall i :: |before| <= i < |blocks| ==> fresh(blocks[i]) && fresh(blocks[i].data)
    }

    /** `alloc_new_block` and `try_alloc_new_block`. */
    method AllocNewBlock(size: nat, align: nat, fallible: bool, os: Option<nat>) returns (out: Outcome)
      requires Tied() && BlocksOk(model.blocks)
      requires size > 0 && ValidAlign(align) && OsOk(model, size, align, os)
      modifies `nextBlockSize, `blocks, `bytesReserved, `bytesAllocated, `current, `highWaterMark
      modifies `curBase, `curPtr, `curEnd, `largestRemaining, `largestRemainingIdx, `model
      ensures Tied() && Extended(old(blocks))
      ensures Shape(old(model)) && (model, out) == OpenBlock(old(model), size, align, fallible, os)
    {
      FieldsAgree();
      var capacity := NextBlockSize(size, align);
      if capacity.None? {
        return Panicked;
      }
      if os.None? {
        return Refusal(fallible);
      }
      NewBlockFits(old(model), size, align, os.value);
      out := OpenAndEnter(os.value, capacity.value, size, align);
    }

    /** Appends a block that takes the request, and enters it. */
    method OpenAndEnter(base: nat, capacity: nat, size: nat, align: nat) returns (out: Outcome)
      requires Tied() && ValidAlign(align)
      requires var b := Blk(base, capacity, Max(align, MIN_BLOCK_ALIGN), 0);
               Fit(b, size, align) == Some(0) && BlocksOk(model.blocks + [b])
      modifies `blocks, `bytesReserved, `bytesAllocated, `current, `highWaterMark
      modifies `curBase, `curPtr, `curEnd, `largestRemaining, `largestRemainingIdx, `model
      ensures Tied() && Extended(old(blocks)) && Shape(old(model))
      ensures var b := Blk(base, capacity, Max(align, MIN_BLOCK_ALIGN), 0);
              var n := |old(model).blocks|;
              var u := old(model).(blocks := old(model).blocks + [b], bytesReserved := old(model).bytesReserved + capacity);
              u.largestIdx <= n && out == Placed(n, 0) && model == Enter(u, n, 0, size, align)
    {
      FieldsAgree();
      PushBlock(base, capacity, Max(align, MIN_BLOCK_ALIGN));
      var r := TryEnter(|blocks| - 1, size, align);
      out := Placed(|blocks| - 1, r.value);
    }

    /** Tries one retained block of the scan. */
    method Probe(i: nat, size: nat, align: nat) returns (r: Option<nat>)
      requires Tied() && BlocksOk(model.blocks) && IsPow2(align) && i < |blocks| == |model.blocks|
      modifies `bytesAllocated, `current, `highWaterMark, `curBase, `curPtr, `curEnd
      modifies `largestRemaining, `largestRemainingIdx, `model, {blocks[i]}
      ensures Tied()
      ensures r.None? ==> model == old(model) && !(old(model.blocks[i]).align >= align
                                                   && Fit(old(model.blocks[i]), size, align).Some?)
      ensures r.Some? ==> old(model.blocks[i]).align >= align && r == Fit(old(model.blocks[i]), size, align)
                          && old(model.largestIdx) < |blocks| && model == Enter(old(model), i, r.value, size, align)
    {
      BlockAt(i);
      if blocks[i].align >= align {
        r := TryEnter(i, size, align);
      } else {
        r := None;
      }
    }

    /** First-fit over the retained blocks after the current one. */
    method ScanRetained(size: nat, align: nat) returns (out: Option<Outcome>)
      requires Tied() && BlocksOk(model.blocks) && IsPow2(align)
      modifies `bytesAllocated, `current, `highWaterMark, `curBase, `curPtr, `curEnd
      modifies `largestRemaining, `largestRemainingIdx, `model, blocks
      ensures Tied() && Shape(old(model))
      ensures var found := Scan(old(model.blocks), size, align, old(model.current) + 1);
              if found.None? then out == None && model == old(model)
              else
                var start := Fit(old(model.blocks)[found.value], size, align).value;
                out == Some(Placed(found.value, start)) && model == Enter(old(model), found.value, start, size, align)
    {
      FieldsAgree();
      ghost var found := Scan(model.blocks, size, align, model.current + 1);
      var i := current + 1;
      while i < |blocks|
        invariant Tied() && model == old(model) && |blocks| == |model.blocks|
        invariant found == Scan(model.blocks, size, align, i)
      {
        var r := Probe(i, size, align);
        if r.Some? {
          assert found == Some(i);
          return Some(Placed(i, r.value));
        }
        i := i + 1;
      }
      out := None;
    }

    /** The slow path after the flush: scan if the cached bound admits the request, else open a block. */
    method AllocFlushed(size: nat, align: nat, fallible: bool, os: Option<nat>) returns (out: Outcome)
      requires Tied() && BlocksOk(model.blocks)
      requires size > 0 && ValidAlign(align) && OsOk(model, size, align, os)
      modifies `nextBlockSize, `blocks, `bytesReserved, `bytesAllocated, `current, `highWaterMark
      modifies `curBase, `curPtr, `curEnd, `largestRemaining, `largestRemainingIdx, `model, blocks
      ensures Tied() && Extended(old(blocks)) && Shape(old(model))
      ensures (model, out) == ServeFlushed(old(model), size, align, fallible, os)
    {
      FieldsAgree();
      if align <= MIN_BLOCK_ALIGN && size <= largestRemaining {
        var found := ScanRetained(size, align);
        if found.Some? {
          return found.value;
        }
      }
      out := AllocNewBlock(size, align, fallible, os);
    }

    method AllocSlow(size: nat, align: nat, fallible: bool, os: Option<nat>) returns (out: Outcome)
      requires Tied() && BlocksOk(model.blocks) && CursorOk(model)
      requires size > 0 && ValidAlign(align) && OsOk(model, size, align, os)
      modifies `nextBlockSize, `blocks, `bytesReserved, `bytesAllocated, `current, `highWaterMark
      modifies `curBase, `curPtr, `curEnd, `largestRemaining, `largestRemainingIdx, `model, blocks
      ensures Tied() && Extended(old(blocks))
      ensures (model, out) == Slow(old(model), size, align, fallible, os)
    {
      ghost var used := model.used;
      FinishSlowPath();
      FlushKeeps(old(model), size, align, os);
      out := AllocFlushed(size, align, fallible, os);
      if !out.Placed? {
        Recount(used);
      }
    }

    /** Ghost bookkeeping of a refusal. */
    ghost method Recount(used: nat)
      requires Tied()
      modifies `model
      ensures Tied() && model == old(model).(recounted := old(model).recounted + used)
    {
      TiedMeans();
      model := model.(recounted := model.recounted + used);
      TiedMeans();
    }

    // ----- allocation ----------------------------------------------------------------------------

    /** `alloc_raw_inner` and `try_alloc_raw_inner`, short of the destructor log. */
    method AllocInner(size: nat, align: nat, fallible: bool, os: Option<nat>) returns (out: Outcome)
      requires Tied() && BlocksOk(model.blocks) && CursorOk(model)
      requires size > 0 && ValidAlign(align) && OsOk(model, size, align, os)
      modifies `nextBlockSize, `blocks, `bytesReserved, `bytesAllocated, `current, `highWaterMark
      modifies `curBase, `curPtr, `curEnd, `largestRemaining, `largestRemainingIdx, `model, blocks
      ensures Tied() && Extended(old(blocks))
      ensures (model, out) == Alloc(old(model), size, align, fallible, os)
    {
      var aligned := AlignedCursor(size, align);
      if aligned.Some? && aligned.value + size <= USIZE_MAX && aligned.value + size <= curEnd {
        BumpCursor(aligned.value, size, align);
        out := Placed(current, aligned.value - curBase);
      } else if fallible && aligned.Some? && aligned.value + size > USIZE_MAX {
        out := Failed;
      } else {
        out := AllocSlow(size, align, fallible, os);
      }
    }

    /** The aligned cursor; `None` for alignments that always take the slow path. */
    method AlignedCursor(size: nat, align: nat) returns (aligned: Option<nat>)
      requires Tied() && BlocksOk(model.blocks) && CursorOk(model) && ValidAlign(align)
      ensures Shape(model) && current == model.current && curBase == model.blocks[current].base
      ensures curEnd == curBase + model.blocks[current].capacity
      ensures aligned == if align > MIN_BLOCK_ALIGN then None else Some(BumpAddress(model, align))
    {
      FieldsAgree();
      if align > MIN_BLOCK_ALIGN {
        return None;
      }
      assert BlkOk(model.blocks[current]);
      aligned := Some(AlignUp(curPtr, align));
    }

    method BumpCursor(aligned: nat, size: nat, align: nat)
      requires Tied() && Shape(model) && align > 0 && aligned == BumpAddress(model, align)
      modifies `curPtr, `model
      ensures Tied() && model == Bump(old(model), size, align)
    {
      TiedMeans();
      BlockAt(current);
      curPtr := aligned + size;
      model := Bump(model, size, align);
      TiedMeans();
    }

    /** `alloc_raw` and `try_alloc_raw` for positive sizes: no byte of memory changes. */
    method AllocRaw(size: nat, align: nat, fallible: bool, os: Option<nat>) returns (out: Outcome)
      requires Valid() && size > 0 && ValidAlign(align) && OsOk(model, size, align, os)
      modifies this, blocks
      ensures Valid() && Extended(old(blocks))
      ensures Shape(old(model)) && (model, out) == Alloc(old(model), size, align, fallible, os)
    {
      ValidMeans();
      WellformedMeans(model);
      out := AllocInner(size, align, fallible, os);
      AllocKeepsWellformed(old(model), size, align, fallible, os);
      StillApart(old(blocks));
      ValidMeans();
    }

    /** Enters a destructor in the log under the next serial number. */
    method LogDestructor(kind: DropKind)
      requires Tied() && RegistryLinked()
      modifies dropRegistry.Repr
      ensures Tied() && fresh(dropRegistry.Repr - old(dropRegistry.Repr))
      ensures dropRegistry.Valid() && this !in dropRegistry.Repr && Owned(blocks) !! dropRegistry.Repr
      ensures dropRegistry.ran == old(model.ran)
      ensures var slot := SlotFor(kind, old(model.serial));
              dropRegistry.Slots() == old(model.slots) + if slot.Some? then [slot.value] else []
      ensures model == old(model)
    {
      TiedMeans();
      match kind {
        case NoDrop =>
        case One => dropRegistry.Register(serial, true);
        case Many(n) => dropRegistry.RegisterSlice(serial, n, true);
      }
      TiedMeans();
    }

    /** Logs the newest region's destructor. */
    method RegisterNewest(kind: DropKind)
      requires Tied() && RegistryLinked() && model.live != []
      modifies `serial, `model, dropRegistry.Repr
      ensures Tied() && RegistryLinked() && fresh(dropRegistry.Repr - old(dropRegistry.Repr))
      ensures blocks == old(blocks) && model == Register(old(model), kind)
    {
      LogDestructor(kind);
      TiedMeans();
      if kind.One? || (kind.Many? && kind.count > 0) {
        serial := serial + 1;
      }
      model := Register(model, kind);
      TiedMeans();
    }

    /** `alloc`, `alloc_slice` and their fallible variants, short of writing the value. */
    method Serve(r: Request, os: Option<nat>) returns (out: Outcome)
      requires Valid() && r.size > 0 && ValidAlign(r.align) && OsOk(model, r.size, r.align, os)
      modifies this, blocks, dropRegistry.Repr
      ensures Valid() && Extended(old(blocks)) && fresh(dropRegistry.Repr - old(dropRegistry.Repr))
      ensures Shape(old(model)) && (model, out) == ArenaModel.Serve(old(model), r, os)
    {
      AllocKeepsWellformedHere(r, os);
      out := AllocRaw(r.size, r.align, r.fallible, os);
      ValidMeans();
      if out.Placed? {
        RegisterNewest(r.kind);
      }
      ValidMeans();
    }

    lemma AllocKeepsWellformedHere(r: Request, os: Option<nat>)
      requires Valid() && r.size > 0 && ValidAlign(r.align) && OsOk(model, r.size, r.align, os)
      ensures Shape(model) && Wellformed(ArenaModel.Serve(model, r, os).0)
      ensures Alloc(model, r.size, r.align, r.fallible, os).1.Placed? ==>
                Alloc(model, r.size, r.align, r.fallible, os).0.live != []
    {
      ValidMeans();
      WellformedMeans(model);
      ServeMeaning(model, r, os);
      WellformedMeans(ArenaModel.Serve(model, r, os).0);
      AllocKeepsWellformed(model, r.size, r.align, r.fallible, os);
    }

    /** In-place growth by the owner of the newest region, which ends at the cursor. */
    method ExtendNewest(newEnd: nat, ghost size: nat)
      requires Valid() && model.live != [] && model.live[|model.live| - 1].size <= size
      requires newEnd == curBase + model.live[|model.live| - 1].off + size <= curEnd
      modifies `curPtr, `model
      ensures Valid() && model == GrowNewest(old(model), size)
    {
      ValidMeans();
      FieldsAgree();
      GrowKeepsWellformed(model, size);
      MoveNewest(newEnd, size);
      ValidMeans();
    }

    method MoveNewest(newEnd: nat, ghost size: nat)
      requires Tied() && RegistryLinked() && model.live != []
      requires newEnd == curBase + model.live[|model.live| - 1].off + size
      modifies `curPtr, `model
      ensures Tied() && RegistryLinked() && model == GrowNewest(old(model), size)
    {
      TiedMeans();
      curPtr := newEnd;
      model := GrowNewest(model, size);
      TiedMeans();
    }

    /** Appending new blocks keeps the arena's objects apart from the destructor log's. */
    twostate lemma StillApart(before: seq<Block>)
      requires old(Owned(before) !! dropRegistry.Repr) && Extended(before)
      requires old(allocated(dropRegistry.Repr)) && dropRegistry.Repr == old(dropRegistry.Repr)
      ensures Owned(blocks) !! dropRegistry.Repr
    {
      forall b | b in blocks ensures b !in dropRegistry.Repr && b.data !in dropRegistry.Repr {
        var i :| 0 <= i < |blocks| && blocks[i] == b;
        if i < |before| {
          assert before[i] == b && b in before;
          assert b as object in Owned(before) && b.data as object in Owned(before);
        } else {
          assert fresh(blocks[i]) && fresh(blocks[i].data);
        }
      }
    }

    // ----- checkpoint, rewind, reset -------------------------------------------------------------

    method TakeCheckpoint() returns (m: Mark)
      requires Valid()
      ensures m == MarkOf(model)
    {
      ValidMeans();
      TiedMeans();
      var len := dropRegistry.Len();
      m := Mark(current, curPtr - curBase, bytesAllocated + (curPtr - curBase), len);
    }

    method GetStats() returns (st: Stats)
      requires Valid()
      ensures st == Stats(Reported(model), TotalCapacity(model.blocks), |model.blocks|)
    {
      ValidMeans();
      TiedMeans();
      WellformedMeans(model);
      st := Stats(bytesAllocated + (curPtr - curBase), bytesReserved, |blocks|);
    }

    /** Zeroes the offsets of blocks `lo..=hi`. */
    method ZeroBlocks(lo: nat, hi: nat)
      requires BlocksLinked() && OffsetsFit(model.blocks) && hi < |blocks|
      modifies `model, blocks
      ensures BlocksLinked() && OffsetsFit(model.blocks)
      ensures model == old(model).(blocks := ZeroOffsets(old(model.blocks), lo, hi))
    {
      MirrorsMeans(blocks, model.blocks);
      ghost var views := model.blocks;
      ghost var zeroed := ZeroOffsets(views, lo, hi);
      var i := lo;
      while i <= hi
        invariant model == old(model) && lo <= i && (i <= hi + 1 || i == lo)
        invariant forall j :: 0 <= j < |blocks| ==> blocks[j].offset == if lo <= j < i then 0 else views[j].offset
        decreases hi + 1 - i
      {
        OthersDiffer(blocks, i);
        blocks[i].offset := 0;
        i := i + 1;
      }
      forall j | 0 <= j < |blocks| ensures blocks[j].View() == zeroed[j] {
        assert old(blocks[j].View()) == views[j];
      }
      model := model.(blocks := zeroed);
      MirrorsMeans(blocks, model.blocks);
    }

    method SetOffset(i: nat, offset: nat)
      requires BlocksLinked() && OffsetsFit(model.blocks) && i < |blocks| && offset <= model.blocks[i].capacity
      modifies `model, blocks
      ensures BlocksLinked() && OffsetsFit(model.blocks)
      ensures model == old(model).(blocks := old(model.blocks)[i := old(model.blocks)[i].(offset := offset)])
    {
      MirrorsMeans(blocks, model.blocks);
      OthersDiffer(blocks, i);
      blocks[i].offset := offset;
      model := model.(blocks := model.blocks[i := model.blocks[i].(offset := offset)]);
      MirrorsMeans(blocks, model.blocks);
    }

    /** The offsets `rewind` writes: zero after the checkpoint's block, the checkpointed one in it. */
    method RestoreOffsets(m: Mark, hi: nat)
      requires BlocksLinked() && OffsetsFit(model.blocks) && hi < |blocks| && m.block < |model.blocks|
      requires m.offset <= model.blocks[m.block].capacity
      modifies `model, blocks
      ensures BlocksLinked() && OffsetsFit(model.blocks)
      ensures var zeroed := ZeroOffsets(old(model.blocks), m.block + 1, hi);
              model == old(model).(blocks := zeroed[m.block := zeroed[m.block].(offset := m.offset)])
    {
      ZeroBlocks(m.block + 1, hi);
      SetOffset(m.block, m.offset);
    }

    /** The counters `rewind` restores. */
    method RestoreCounters(m: Mark, ghost cp: Checkpoint)
      requires BlocksLinked() && CountersLinked() && OffsetsFit(model.blocks) && cp.liveLen <= |model.live|
      requires m.offset == cp.offset <= cp.bytes == m.bytes
      modifies `bytesAllocated, `model
      ensures BlocksLinked() && CountersLinked()
      ensures model == old(model).(bytesAllocated := cp.bytes - cp.offset, live := old(model).live[..cp.liveLen],
                                   recounted := cp.recounted)
    {
      bytesAllocated := m.bytes - m.offset;
      model := model.(bytesAllocated := bytesAllocated, live := model.live[..cp.liveLen], recounted := cp.recounted);
    }

    /** Space reclamation of `rewind`. */
    method ReclaimSpace(m: Mark, ghost cp: Checkpoint)
      requires Tied() && OffsetsFit(model.blocks) && InRange(model, cp) && model.current < |model.blocks|
      requires m.block == cp.block && m.offset == cp.offset <= model.blocks[cp.block].capacity && m.bytes == cp.bytes
      modifies `bytesAllocated, `current, `highWaterMark, `curBase, `curPtr, `curEnd
      modifies `largestRemaining, `largestRemainingIdx, `model, blocks
      ensures Tied() && model == Reclaim(old(model), cp)
    {
      TiedMeans();
      RestoreOffsets(m, current);
      RestoreCounters(m, cp);
      SetCurrentBlock(m.block);
    }

    /** Runs the destructors logged past `target`. */
    method RunDrops(target: nat, bad: set<Elem>) returns (panicked: bool)
      requires Tied() && RegistryLinked() && target <= |model.slots|
      modifies `model, dropRegistry.Repr
      ensures Tied() && RegistryLinked() && fresh(dropRegistry.Repr - old(dropRegistry.Repr))
      ensures model == Unregister(old(model), target, bad)
      ensures panicked <==> AnyPanics(old(model.slots), target, |old(model.slots)|, bad)
    {
      TiedMeans();
      panicked := dropRegistry.RunDropsUntil(target, bad);
      model := Unregister(model, target, bad);
      TiedMeans();
    }

    /** Ghost bookkeeping of a reclamation cut short by a panic. */
    ghost method ForgetFrom(n: nat)
      requires Tied() && RegistryLinked()
      modifies `model
      ensures Tied() && RegistryLinked() && model == old(model).(live := Forget(old(model.live), n))
    {
      TiedMeans();
      model := model.(live := Forget(model.live, n));
      TiedMeans();
    }

    /**
     `rewind` to a mark taken at the state `origin`. `panicked` reports the assertion on a foreign
     mark's block index, or a destructor's panic; in both cases nothing is reclaimed.
     */
    method Rewind(m: Mark, ghost origin: State, bad: set<Elem>) returns (panicked: bool)
      requires Valid()
      requires m.block < |blocks| ==> m == MarkOf(origin) && Wellformed(origin) && Since(origin, model)
      modifies this, blocks, dropRegistry.Repr
      ensures Valid() && blocks == old(blocks) && fresh(dropRegistry.Repr - old(dropRegistry.Repr))
      ensures m.block >= |blocks| ==> panicked && model == old(model)
      ensures m.block < |blocks| ==>
                && InRange(old(model), Cp(origin))
                && model == ArenaModel.Rewind(old(model), Cp(origin), bad)
                && (panicked <==> !NoPanic(old(model), |origin.slots|, bad))
    {
      if m.block >= |blocks| {
        return true;
      }
      ValidMeans();
      RewindIsPossible(origin, model, bad);
      panicked := RunDrops(m.dropLen, bad);
      if panicked {
        ForgetFrom(|origin.live|);
      } else {
        ReclaimSpace(m, Cp(origin));
      }
      ValidMeans();
    }

    /** The loop of `reset` that looks for the largest retained block after block 0. */
    method LargestCapacity() returns (best: nat, at: nat)
      requires BlocksLinked() && |blocks| > 0
      ensures (best, at) == LargestIn(Capacities(model.blocks), 0, |model.blocks|) && at < |blocks|
    {
      MirrorsMeans(blocks, model.blocks);
      ghost var caps := Capacities(model.blocks);
      best, at := 0, 0;
      var i := 1;
      while i < |blocks|
        invariant 1 <= i <= |blocks| && at < i && (best, at) == LargestIn(caps, 0, i)
      {
        var cap := blocks[i].capacity;
        assert caps[i] == cap;
        if cap > best {
          best, at := cap, i;
        }
        i := i + 1;
      }
    }

    /** Puts the cursor at the start of block 0. */
    method CursorToStart()
      requires |blocks| > 0
      modifies `bytesAllocated, `current, `highWaterMark, `curBase, `curPtr, `curEnd
      ensures bytesAllocated == 0 && current == 0 && highWaterMark == 0
      ensures curBase == curPtr == blocks[0].base && curEnd == curBase + blocks[0].capacity
    {
      bytesAllocated := 0;
      var b0 := blocks[0];
      current, highWaterMark := 0, 0;
      curBase, curPtr, curEnd := b0.base, b0.base, b0.base + b0.capacity;
    }

    /** Restarts at block 0, with the cache naming the largest later block. */
    method Restart()
      requires BlocksLinked() && CountersLinked()
      modifies `bytesAllocated, `current, `highWaterMark, `curBase, `curPtr, `curEnd
      modifies `largestRemaining, `largestRemainingIdx, `model
      ensures Tied()
      ensures var (best, at) := LargestIn(Capacities(model.blocks), 0, |model.blocks|);
              model == old(model).(highWater := 0, bytesAllocated := 0, current := 0, used := 0, largest := best,
                                   largestIdx := at, live := [], recounted := 0)
    {
      var best, at := LargestCapacity();
      CursorToStart();
      largestRemaining, largestRemainingIdx := best, at;
      model := model.(highWater := 0, bytesAllocated := 0, current := 0, used := 0, largest := best,
                      largestIdx := at, live := [], recounted := 0);
      TiedMeans();
    }

    /** Space reclamation of `reset`. */
    method ReclaimEverything()
      requires Tied() && OffsetsFit(model.blocks) && model.highWater < |model.blocks|
      modifies `bytesAllocated, `current, `highWaterMark, `curBase, `curPtr, `curEnd
      modifies `largestRemaining, `largestRemainingIdx, `model, blocks
      ensures Tied() && Shape(old(model)) && model == ReclaimAll(old(model))
    {
      FieldsAgree();
      TiedMeans();
      ZeroBlocks(0, highWaterMark);
      Restart();
    }

    method Reset(bad: set<Elem>) returns (panicked: bool)
      requires Valid()
      modifies this, blocks, dropRegistry.Repr
      ensures Valid() && blocks == old(blocks) && fresh(dropRegistry.Repr - old(dropRegistry.Repr))
      ensures Shape(old(model)) && model == ArenaModel.Reset(old(model), bad)
      ensures panicked <==> !NoPanic(old(model), 0, bad)
    {
      ValidMeans();
      FieldsAgree();
      ResetIsPossible(model, bad);
      panicked := RunDrops(0, bad);
      if panicked {
        ForgetFrom(0);
      } else {
        ReclaimEverything();
      }
      ValidMeans();
    }

    method CurrentDepth() returns (d: nat)
      requires Valid()
      ensures d == model.depth
    {
      ValidMeans();
      FieldsAgree();
      d := txnDepth;
    }

    method CurrentBlock() returns (i: nat)
      requires Valid()
      ensures i == model.current
    {
      ValidMeans();
      FieldsAgree();
      i := current;
    }

    lemma OriginInRange(origin: State)
      requires Valid() && Wellformed(origin) && Since(origin, model)
      ensures origin.current < |blocks| == |model.blocks| && InRange(model, Cp(origin)) && NoPanic(model, |origin.slots|, {})
    {
      ValidMeans();
      FieldsAgree();
      RewindIsPossible(origin, model, {});
    }

    /** `txn_depth` is maintained by transactions; nothing else depends on it. */
    method SetTxnDepth(d: nat)
      requires Valid()
      modifies `txnDepth, `model
      ensures Valid() && model == old(model).(depth := d)
    {
      ValidMeans();
      TiedMeans();
      DepthKeepsWellformed(model, d);
      txnDepth := d;
      model := model.(depth := d);
      TiedMeans();
      ValidMeans();
    }

    // ----- allocations that write ----------------------------------------------------------------

    /** Fills `payload` in at a position, byte by byte. */
    method WriteBytes(blk: nat, off: nat, payload: seq<byte>)
      requires blk < |blocks| && off + |payload| <= blocks[blk].data.Length
      modifies {blocks[blk].data}
      ensures blocks[blk].data[off..off + |payload|] == payload
      ensures forall o :: 0 <= o < blocks[blk].data.Length && !(off <= o < off + |payload|) ==>
                blocks[blk].data[o] == old(blocks[blk].data[o])
    {
      var data := blocks[blk].data;
      for i := 0 to |payload|
        invariant data[off..off + i] == payload[..i]
        invariant forall o :: 0 <= o < data.Length && !(off <= o < off + i) ==> data[o] == old(data[o])
      {
        data[off + i] := payload[i];
      }
    }

    /** Bytes of block `blk` outside `off..off + n`, and all bytes of the other old blocks, are unchanged. */
    twostate predicate OnlyTouched(before: seq<Block>, blk: nat, off: nat, n: nat)
      reads set b | b in before :: b.data
    {
      forall i, o {:trigger before[i].data[o]} :: 0 <= i < |before| && 0 <= o < before[i].data.Length ==>
        (i == blk && off <= o < off + n) || before[i].data[o] == old(before[i].data[o])
    }

    /** The region just placed lies inside its block's memory. */
    lemma PlacedInside(k: nat)
      requires Valid() && k < |model.live|
      ensures model.live[k].blk < |blocks| == |model.blocks|
      ensures model.live[k].off + model.live[k].size <= blocks[model.live[k].blk].data.Length
      ensures blocks[model.live[k].blk].data !in dropRegistry.Repr && AllDistinct(blocks)
    {
      ValidMeans();
      TiedMeans();
      WellformedMeans(model);
      MirrorsMeans(blocks, model.blocks);
      assert InBlock(model, model.live[k]);
      assert BlkOk(model.blocks[model.live[k].blk]);
      assert blocks[model.live[k].blk].data as object in Owned(blocks);
    }

    /** Fills in the start of the region of `n` bytes just placed. */
    method FillNewest(out: Outcome, ghost n: nat, payload: seq<byte>)
      requires Valid() && model.live != [] && out.Placed? && NewestIs(model, out, n) && |payload| <= n
      modifies set b | b in blocks :: b.data
      ensures Valid() && out.blk < |blocks| && out.off + |payload| <= blocks[out.blk].data.Length
      ensures blocks[out.blk].data[out.off..out.off + |payload|] == payload
      ensures OnlyTouched(blocks, out.blk, out.off, |payload|)
    {
      DataApart();
      PlacedInside(|model.live| - 1);
      DistinctFrom(out.blk);
      WriteBytes(out.blk, out.off, payload);
    }

    /**
     Places `n` bytes and copies `payload` to their start. An iterator that panics while a slice is
     filled leaves exactly this: a live region that owes no destructor, written up to that point.
     */
    method PlaceAndFill(n: nat, payload: seq<byte>, align: nat, fallible: bool, os: Option<nat>) returns (out: Outcome)
      requires Valid() && n > 0 && |payload| <= n && ValidAlign(align) && OsOk(model, n, align, os)
      modifies this, blocks, set b | b in blocks :: b.data
      ensures Valid() && Extended(old(blocks)) && Shape(old(model))
      ensures (model, out) == Alloc(old(model), n, align, fallible, os)
      ensures out.Placed? ==>
                && model.live != [] && model.live[|model.live| - 1].slot.None?
                && out.blk < |blocks| && out.off + |payload| <= blocks[out.blk].data.Length
                && blocks[out.blk].data[out.off..out.off + |payload|] == payload
      ensures if out.Placed? then OnlyTouched(old(blocks), out.blk, out.off, |payload|)
              else OnlyTouched(old(blocks), 0, 0, 0)
    {
      PlacesNewest(n, align, fallible, os);
      out := AllocRaw(n, align, fallible, os);
      if out.Placed? {
        FillNewest(out, n, payload);
      }
    }

    /** A granted request makes its region the newest one; no destructor is registered for it yet. */
    lemma PlacesNewest(n: nat, align: nat, fallible: bool, os: Option<nat>)
      requires Valid() && n > 0 && ValidAlign(align) && OsOk(model, n, align, os)
      ensures Shape(model)
      ensures var (t, out) := Alloc(model, n, align, fallible, os);
              out.Placed? ==> t.live != [] && t.live[|t.live| - 1].slot.None? && NewestIs(t, out, n)
    {
      ValidMeans();
      FieldsAgree();
      AllocKeepsWellformed(model, n, align, fallible, os);
    }

    /** `alloc_slice_copy` and `alloc_slice`: place, fill, register. */
    method AllocBytes(payload: seq<byte>, align: nat, fallible: bool, kind: DropKind, os: Option<nat>)
      returns (out: Outcome)
      requires Valid() && |payload| > 0 && ValidAlign(align) && OsOk(model, |payload|, align, os)
      modifies this, blocks, dropRegistry.Repr, set b | b in blocks :: b.data
      ensures Valid() && Extended(old(blocks)) && fresh(dropRegistry.Repr - old(dropRegistry.Repr))
      ensures Shape(old(model))
      ensures (model, out) == ArenaModel.Serve(old(model), Request(|payload|, align, fallible, kind), os)
      ensures out.Placed? ==> out.blk < |blocks| && out.off + |payload| <= blocks[out.blk].data.Length
      ensures out.Placed? ==> blocks[out.blk].data[out.off..out.off + |payload|] == payload
      ensures if out.Placed? then OnlyTouched(old(blocks), out.blk, out.off, |payload|)
              else OnlyTouched(old(blocks), 0, 0, 0)
    {
      ghost var r := Request(|payload|, align, fallible, kind);
      AllocKeepsWellformedHere(r, os);
      ServeUnfolds(model, r, os, Alloc(model, r.size, align, fallible, os).0, Alloc(model, r.size, align, fallible, os).1);
      out := PlaceAndFill(|payload|, payload, align, fallible, os);
      if out.Placed? {
        RegisterFilled(kind);
      }
    }

    /** Registration of a filled region; the destructor log shares no memory with the blocks. */
    method RegisterFilled(kind: DropKind)
      requires Valid() && model.live != [] && Wellformed(Register(model, kind))
      modifies `serial, `model, dropRegistry.Repr
      ensures Valid() && fresh(dropRegistry.Repr - old(dropRegistry.Repr)) && blocks == old(blocks)
      ensures model == Register(old(model), kind)
      ensures forall b :: b in blocks ==> b.data[..] == old(b.data[..])
    {
      DataApart();
      ValidMeans();
      RegisterNewest(kind);
      ValidMeans();
    }

    lemma DistinctFrom(c: nat)
      requires c < |blocks| && AllDistinct(blocks)
      ensures forall i :: 0 <= i < |blocks| && i != c ==> blocks[i].data != blocks[c].data
    {
      OthersDiffer(blocks, c);
    }

    lemma DataApart()
      requires Valid()
      ensures forall b :: b in blocks ==> b.data !in dropRegistry.Repr
    {
      ValidMeans();
      forall b | b in blocks ensures b.data !in dropRegistry.Repr {
        assert b.data as object in Owned(blocks);
      }
    }

    /** Placement of `alloc_str` and `try_alloc_str`: the byte-aligned fast path, else the general one. */
    method PlaceStr(n: nat, fallible: bool, os: Option<nat>) returns (out: Outcome)
      requires Valid() && n > 0 && OsOk(model, n, 1, os)
      modifies this, blocks
      ensures Valid() && Extended(old(blocks))
      ensures Shape(old(model)) && (model, out) == Alloc(old(model), n, 1, fallible, os)
      ensures out.Placed? ==> model.live != [] && NewestIs(model, out, n)
    {
      ValidMeans();
      FieldsAgree();
      ByteBump(model);
      AllocKeepsWellformed(model, n, 1, fallible, os);
      if curPtr + n <= curEnd {
        EndIsWord();
        out := Placed(current, curPtr - curBase);
        BumpCursor(curPtr, n, 1);
        ValidMeans();
      } else {
        out := AllocRaw(n, 1, fallible, os);
      }
    }

    /** The cursor's block ends below the top of the address space. */
    lemma EndIsWord()
      requires Valid()
      ensures curEnd <= USIZE_MAX
    {
      ValidMeans();
      FieldsAgree();
      WellformedMeans(model);
      assert BlkOk(model.blocks[current]);
    }

    /** `alloc_str` and `try_alloc_str`: place, then copy the bytes. */
    method AllocStr(s: seq<byte>, fallible: bool, os: Option<nat>) returns (out: Option<Outcome>)
      requires Valid() && (|s| > 0 ==> OsOk(model, |s|, 1, os))
      modifies this, blocks, set b | b in blocks :: b.data
      ensures Valid() && Extended(old(blocks)) && Shape(old(model))
      ensures |s| == 0 ==> out == None && model == old(model)
      ensures |s| > 0 ==> out.Some? && (model, out.value) == Alloc(old(model), |s|, 1, fallible, os)
      ensures out.Some? && out.value.Placed? ==>
                && out.value.blk < |blocks| && out.value.off + |s| <= blocks[out.value.blk].data.Length
                && blocks[out.value.blk].data[out.value.off..out.value.off + |s|] == s
      ensures if out.Some? && out.value.Placed? then OnlyTouched(old(blocks), out.value.blk, out.value.off, |s|)
              else OnlyTouched(old(blocks), 0, 0, 0)
    {
      ValidMeans();
      FieldsAgree();
      if |s| == 0 {
        return None;
      }
      var placed := PlaceStr(|s|, fallible, os);
      out := Some(placed);
      if placed.Placed? {
        FillNewest(placed, |s|, s);
      }
    }
  }

  /** The newest live region is the one just placed. */
  predicate NewestIs(s: State, out: Outcome, size: nat)
    requires s.live != [] && out.Placed?
  {
    var r := s.live[|s.live| - 1];
    r.blk == out.blk && r.off == out.off && r.size == size
  }

  lemma DepthKeepsWellformed(s: State, d: nat)
    requires Wellformed(s)
    ensures Wellformed(s.(depth := d))
  {
    WellformedMeans(s);
    WellformedMeans(s.(depth := d));
  }

  lemma ResetIsPossible(s: State, bad: set<Elem>)
    requires Wellformed(s) && Shape(s)
    ensures Wellformed(Reset(s, bad)) && OffsetsFit(s.blocks) && s.highWater < |s.blocks|
  {
    WellformedMeans(s);
    ResetKeepsInv(s, bad);
    WellformedMeans(Reset(s, bad));
    forall i | 0 <= i < |s.blocks| ensures s.blocks[i].offset <= s.blocks[i].capacity {
      assert BlkOk(s.blocks[i]);
    }
  }

  lemma RewindIsPossible(m: State, s: State, bad: set<Elem>)
    requires Wellformed(m) && Wellformed(s) && Since(m, s)
    ensures InRange(s, Cp(m)) && Wellformed(Rewind(s, Cp(m), bad)) && OffsetsFit(s.blocks) && Shape(s)
    ensures m.used <= s.blocks[m.current].capacity
  {
    RewindMeaning(m, s, bad);
    WellformedMeans(m);
    WellformedMeans(s);
    forall i | 0 <= i < |s.blocks| ensures s.blocks[i].offset <= s.blocks[i].capacity {
      assert BlkOk(s.blocks[i]);
    }
  }

  lemma CacheInRange(blocks: seq<Blk>, at: nat, idx: nat)
    requires idx < |blocks| && at < |blocks|
    ensures CacheFor(blocks, at, idx).1 < |blocks|
  {
    LargestInMeaning(Rooms(blocks), idx, |blocks|);
  }

  /** The block the growth rule asks for, at an admissible base, serves the request and stays apart. */
  lemma NewBlockFits(s: State, size: nat, align: nat, base: nat)
    requires BlocksOk(s.blocks) && ValidAlign(align) && OsOk(s, size, align, Some(base))
    requires NextBlockFor(s.nextSize, size, align).Some?
    ensures var b := Blk(base, NextBlockFor(s.nextSize, size, align).value.0, Max(align, MIN_BLOCK_ALIGN), 0);
            Fit(b, size, align) == Some(0) && BlocksOk(s.blocks + [b])
  {
    var b := Blk(base, NextBlockFor(s.nextSize, size, align).value.0, Max(align, MIN_BLOCK_ALIGN), 0);
    FreshBlockFits(s.nextSize, size, align, base);
    forall i, j | 0 <= i < j < |s.blocks + [b]| ensures Apart(s.blocks + [b], i, j) {
      if j < |s.blocks| {
        assert Apart(s.blocks, i, j);
      }
    }
  }

  lemma FlushKeeps(s: State, size: nat, align: nat, os: Option<nat>)
    requires BlocksOk(s.blocks) && CursorOk(s) && align > 0 && OsOk(s, size, align, os)
    ensures BlocksOk(Flush(s).blocks) && OsOk(Flush(s), size, align, os)
  {
    SameBlocksOk(s.blocks, Flush(s).blocks);
  }
}

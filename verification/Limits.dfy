/**
 The growth law over whole runs, and what breaks beyond 16 MiB: the scan cache may then
 underestimate the free space, and a retry may open blocks.
 */
module Limits {
  import opened Bits
  import opened Wrappers
  import opened Drops
  import opened ArenaModel
  import opened ArenaInvariants
  import opened Rewinding
  import opened Growth
  import opened Replay
  import opened Runs

  predicate ModestOp(op: Op) {
    op.Serving? ==> Modest(op.req.size, op.req.align)
  }

  // ----- modest runs -----------------------------------------------------------------------------

  lemma RewindKeepsGrown(m: State, s: State, bad: set<Elem>)
    requires Inv(s) && Held(m, s) && Grown(s)
    ensures InRange(s, Cp(m)) && Grown(Rewind(s, Cp(m), bad))
  {
    WellformedMeans(s);
    RewindMeaning(m, s, bad);
    if NoPanic(s, |m.slots|, bad) {
      RewoundKeepsGrown(m, s, Rewind(s, Cp(m), bad), bad);
    }
  }

  lemma ResetKeepsGrown(s: State, bad: set<Elem>)
    requires Inv(s) && Grown(s)
    ensures Grown(Reset(s, bad))
  {
    if NoPanic(s, 0, bad) {
      ResetEmpties(s, bad);
      EmptiedKeepsGrown(s, Reset(s, bad));
    }
  }

  lemma StepKeepsGrown(w: World, op: Op)
    requires Sound(w) && Shape(w.s) && Enabled(w, op) && ModestOp(op) && Grown(w.s)
    ensures Grown(Step(w, op).s)
  {
    SoundMeans(w);
    match op
    case Serving(r, os, payload) => ServeMeaning(w.s, r, os);
    case RewindTo(k, bad) =>
      assert Held(w.marks[k], w.s);
      RewindKeepsGrown(w.marks[k], w.s, bad);
    case ResetAll(bad) => ResetKeepsGrown(w.s, bad);
    case _ =>
  }

  lemma {:induction false} ExecuteKeepsGrown(w: World, ops: seq<Op>)
    requires Sound(w) && EnabledAll(w, ops) && Grown(w.s) && forall i :: 0 <= i < |ops| ==> ModestOp(ops[i])
    ensures Grown(Execute(w, ops).s)
    decreases |ops|
  {
    if |ops| > 0 {
      StepKeepsGrown(w, ops[0]);
      StepKeeps(w, ops[0]);
      ExecuteKeepsGrown(Step(w, ops[0]), ops[1..]);
    }
  }

  /**
   Every state reached by modest requests from an initial capacity of at most 16 MiB: the cached
   bound is the true maximum of the free space after the cursor, capacities never shrink along
   the block list, and there are at most 18 blocks beyond one per reserved 16 MiB.
   */
  lemma ModestRuns(initial: nat, base: nat, mem: Memory, ops: seq<Op>)
    requires initial <= MAX_BLOCK_SIZE && FreshBlock([], base, Max(initial, MIN_BLOCK_SIZE), MIN_BLOCK_ALIGN)
    requires EnabledAll(Start(initial, base, mem), ops) && forall i :: 0 <= i < |ops| ==> ModestOp(ops[i])
    ensures var s := Execute(Start(initial, base, mem), ops).s;
            && s.largest == LargestIn(Rooms(s.blocks), s.current, |s.blocks|).0
            && (forall i, j :: 0 <= i <= j < |s.blocks| ==> s.blocks[i].capacity <= s.blocks[j].capacity)
            && |s.blocks| <= 18 + s.bytesReserved / MAX_BLOCK_SIZE
  {
    var w := Start(initial, base, mem);
    StartIsSound(initial, base, mem);
    WithCapacityGrown(initial, base);
    ExecuteKeeps(w, ops);
    ExecuteKeepsGrown(w, ops);
    var s := Execute(w, ops).s;
    SoundMeans(Execute(w, ops));
    CacheIsExact(s);
    BlockCountBound(s);
    forall i, j | 0 <= i <= j < |s.blocks| ensures s.blocks[i].capacity <= s.blocks[j].capacity {
      CapacitiesNondecreasing(s.blocks, i, j);
    }
  }

  // ----- beyond 16 MiB ---------------------------------------------------------------------------

  /**
   An exact scan cache stays exact across a rewind if and only if no block given back is larger than
   the one it names.
   */
  lemma RewindCacheExactIff(m: State, s: State, t: State, bad: set<Elem>)
    requires Wellformed(s) && Shape(s) && Wellformed(t) && Shape(t) && Since(m, s) && Rewound(m, s, t, bad)
    requires s.largest == LargestIn(Rooms(s.blocks), s.current, |s.blocks|).0
    ensures t.largest == LargestIn(Rooms(t.blocks), t.current, |t.blocks|).0
      <==> forall j :: m.current < j <= s.current ==> s.blocks[j].capacity <= s.blocks[s.largestIdx].capacity
  {
    WellformedMeans(s);
    WellformedMeans(t);
    var rooms, after, at := Rooms(s.blocks), Rooms(t.blocks), s.largestIdx;
    RoomsGivenBack(m, s, t, bad);
    if t.current < at {
      NamedIsLargest(after, t.current, |t.blocks|, at);
    } else {
      LargestInMeaning(after, t.current, |t.blocks|);
    }
    if s.current < at {
      NamedIsLargest(rooms, s.current, |s.blocks|, at);
    }
  }

  /** After the cursor a rewind leaves whole blocks; those after the old cursor were whole before. */
  lemma RoomsGivenBack(m: State, s: State, t: State, bad: set<Elem>)
    requires CursorOk(s) && CursorOk(t) && Since(m, s) && Rewound(m, s, t, bad)
    ensures |t.blocks| == |s.blocks| && t.current == m.current <= s.current
    ensures forall j :: t.current < j < |t.blocks| ==> Rooms(t.blocks)[j] == s.blocks[j].capacity
    ensures forall j :: s.current < j < |s.blocks| ==> Rooms(s.blocks)[j] == s.blocks[j].capacity
  {
    forall j | t.current < j < |t.blocks| ensures Rooms(t.blocks)[j] == s.blocks[j].capacity {
      assert t.blocks[j] == s.blocks[j].(offset := OffsetAt(m, j));
    }
  }

  lemma NamedIsLargest(sizes: seq<nat>, from: nat, to: nat, at: nat)
    requires from < at < to <= |sizes|
    ensures LargestIn(sizes, from, to).0 == sizes[at] <==> forall j :: from < j < to ==> sizes[j] <= sizes[at]
  {
    LargestInMeaning(sizes, from, to);
  }

  /**
   When a request is sent to a new block although a retained one could take it: if and only if the
   cursor's block cannot, the block named by the cache is too small, and some later one is not.
   */
  lemma OpensNeedlesslyIff(t: State, size: nat, align: nat)
    requires Inv(t) && size > 0 && IsPow2(align) && align <= MIN_BLOCK_ALIGN
    ensures (Target(t, size, align) == |t.blocks| && FirstFit(t.blocks, size, t.current + 1) < |t.blocks|)
      <==> (!BumpFits(t, size, align) && t.blocks[t.largestIdx].capacity < size
            && exists j :: t.current < j < |t.blocks| && size <= t.blocks[j].capacity)
  {
    var i := FirstFit(t.blocks, size, t.current + 1);
    if size <= t.largest {
      ScanNeverWasted(t, size, align);
    }
  }

  const BIG: nat := 2 * MAX_BLOCK_SIZE
  const LESS: nat := MAX_BLOCK_SIZE + 1

  /**
   Retry fails beyond the limit: a 32 MiB request followed by one of 16 MiB + 1 leaves, after
   rewinding, a cache that names the smaller block, so the 32 MiB request is sent to a new block
   although the block it was served from is empty and at hand.
   */
  lemma RetryBeyondLimitOpensBlock(base0: nat, base1: nat, base2: nat)
    requires FreshBlock([], base0, 64, 64)
    requires FreshBlock([Blk(base0, 64, 64, 0)], base1, BIG, 64)
    requires FreshBlock([Blk(base0, 64, 64, 0), Blk(base1, BIG, 64, 0)], base2, LESS, 64)
    ensures var m := WithCapacity(64, base0);
            var s := Alloc(Alloc(m, BIG, 1, false, Some(base1)).0, LESS, 1, false, Some(base2)).0;
            InRange(s, Cp(m))
            && var t := Rewind(s, Cp(m), {});
            && |t.blocks| == 3 && t.blocks[1].capacity == BIG && t.blocks[1].offset == 0
            && t.largest == LESS && Shape(t) && Target(t, BIG, 1) == |t.blocks|
  {}

  // ----- refused requests ------------------------------------------------------------------------

  /**
   A retry repeats grants, not refusals: a request refused in the first run can be granted in the
   second, from a block opened in between, although the system allocator refuses again.
   */
  lemma RefusalIsNotReplayed(base0: nat, base1: nat)
    requires FreshBlock([], base0, 64, 64)
    requires FreshBlock([Blk(base0, 64, 64, 0)], base1, 256, 64)
    ensures var m := WithCapacity(64, base0);
            var (a, first) := Alloc(m, 128, 1, true, None);
            Shape(a) && first == Failed
            && var (b, second) := Alloc(a, 128, 1, true, Some(base1));
            second == Placed(1, 0) && InRange(b, Cp(m))
            && var t := Rewind(b, Cp(m), {});
            Shape(t) && Alloc(t, 128, 1, true, None).1 == Placed(1, 0)
  {}

  /** A fallible request can panic: at alignment 128 its worst case overflows a machine word. */
  lemma FallibleCanPanic(base: nat)
    requires FreshBlock([], base, 64, 64)
    ensures Alloc(WithCapacity(64, base), USIZE_MAX - 10, 128, true, None).1 == Panicked
  {}
}

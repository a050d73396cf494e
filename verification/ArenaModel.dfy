/**
 The bump-pointer arena of src/arena/allocator.rs as a state machine on values.

 Every step of the allocator is a function from `State` to `State`; the imperative `Arena` class
 is proved against these functions and all whole-run theorems are about them. The operating
 system's answer to a block request is the argument `os`: the base address of the new block, or
 `None` when it refuses. Positions are (block index, offset); addresses are `base + offset`.
 */
module ArenaModel {
  import opened Bits
  import opened Wrappers
  import opened Drops

  const MIN_BLOCK_SIZE: nat := 64
  const MIN_BLOCK_ALIGN: nat := 64
  const MAX_BLOCK_SIZE: nat := 0x100_0000

  datatype Blk = Blk(base: nat, capacity: nat, align: nat, offset: nat)

  /**
   A live allocation. `entered` is the number of bytes it took from a block other than the one
   that was current when it was requested, and 0 when it was bumped from the current block;
   `slot` is its entry in the destructor log, if it has one.
   */
  datatype Region = Region(blk: nat, off: nat, size: nat, align: nat, entered: nat, slot: Option<DropSlot>)

  /**
   The arena's fields, with `used` standing for `cur_ptr - cur_base`. The last four fields are
   bookkeeping of the model: the live allocations in allocation order, the bytes counted again by
   refused requests, the destructor shims run so far, and the next serial number.
   */
  datatype State = State(
    blocks: seq<Blk>,
    current: nat,
    used: nat,
    nextSize: nat,
    bytesAllocated: nat,
    bytesReserved: nat,
    highWater: nat,
    largest: nat,
    largestIdx: nat,
    depth: nat,
    slots: seq<DropSlot>,
    live: seq<Region>,
    recounted: nat,
    ran: seq<Run>,
    serial: nat)

  datatype Checkpoint = Checkpoint(block: nat, offset: nat, bytes: nat, dropLen: nat,
                                   liveLen: nat, recounted: nat)

  datatype Outcome = Placed(blk: nat, off: nat) | Failed | Panicked

  function Min(a: nat, b: nat): nat { if a < b then a else b }
  function Max(a: nat, b: nat): nat { if a < b then b else a }

  // ----- blocks ----------------------------------------------------------------------------------

  predicate ValidAlign(align: nat) {
    IsPow2(align) && 2 * align <= USIZE_MAX
  }

  /** Free bytes of a block. */
  function Room(b: Blk): nat {
    if b.offset <= b.capacity then b.capacity - b.offset else 0
  }

  /** Where `Block::try_alloc` places a request, or `None` when the block lacks room. */
  function Fit(b: Blk, size: nat, align: nat): (start: Option<nat>)
    requires align > 0
    ensures start.Some? ==> b.offset <= start.value && start.value + size <= b.capacity
  {
    var start := RoundUp(b.base + b.offset, align) - b.base;
    if start + size > USIZE_MAX || start + size > b.capacity then None else Some(start)
  }

  predicate Disjoint(base1: nat, size1: nat, base2: nat, size2: nat) {
    base1 + size1 <= base2 || base2 + size2 <= base1
  }

  /** What the system allocator promises about a new block of `capacity` bytes at `base`. */
  predicate FreshBlock(blocks: seq<Blk>, base: nat, capacity: nat, align: nat)
    requires align > 0
  {
    && 0 < base && base + capacity + align <= USIZE_MAX
    && Aligned(base, align)
    && forall j :: 0 <= j < |blocks| ==> Disjoint(base, capacity, blocks[j].base, blocks[j].capacity)
  }

  // ----- scan cache ------------------------------------------------------------------------------

  function Rooms(blocks: seq<Blk>): (r: seq<nat>)
    ensures |r| == |blocks|
    ensures forall j :: 0 <= j < |blocks| ==> r[j] == Room(blocks[j])
  {
    seq(|blocks|, j requires 0 <= j < |blocks| => Room(blocks[j]))
  }

  function Capacities(blocks: seq<Blk>): (r: seq<nat>)
    ensures |r| == |blocks|
    ensures forall j :: 0 <= j < |blocks| ==> r[j] == blocks[j].capacity
  {
    seq(|blocks|, j requires 0 <= j < |blocks| => blocks[j].capacity)
  }

  /** First maximum of `sizes[from + 1..to]` and its index; `(0, from)` when there is none. */
  function LargestIn(sizes: seq<nat>, from: nat, to: nat): (nat, nat)
    requires to <= |sizes|
  {
    if to <= from + 1 then (0, from)
    else
      var (best, idx) := LargestIn(sizes, from, to - 1);
      if sizes[to - 1] > best then (sizes[to - 1], to - 1) else (best, idx)
  }

  // ----- state helpers ---------------------------------------------------------------------------

  predicate Shape(s: State) {
    s.current < |s.blocks| && s.largestIdx < |s.blocks|
  }

  /** Bytes taken from block `j`; the current block's own offset field is stale. */
  function Used(s: State, j: nat): nat
    requires j < |s.blocks|
  {
    if j == s.current then s.used else s.blocks[j].offset
  }

  /** The counter returned by `stats`. */
  function Reported(s: State): nat {
    s.bytesAllocated + s.used
  }

  /** Value and index of the scan cache once block `idx` is current; `at` is its old index. */
  function CacheFor(blocks: seq<Blk>, at: nat, idx: nat): (nat, nat)
    requires idx < |blocks| && at < |blocks|
  {
    if at >= idx + 1 then (Room(blocks[at]), at) else LargestIn(Rooms(blocks), idx, |blocks|)
  }

  /** `set_current_block`. */
  function SetCurrent(s: State, idx: nat): State
    requires idx < |s.blocks| && s.largestIdx < |s.blocks|
  {
    var (best, at) := CacheFor(s.blocks, s.largestIdx, idx);
    s.(current := idx, used := s.blocks[idx].offset, highWater := Max(s.highWater, idx),
       largest := best, largestIdx := at)
  }

  function WithCapacity(initial: nat, base: nat): State {
    var size := Max(initial, MIN_BLOCK_SIZE);
    State([Blk(base, size, MIN_BLOCK_ALIGN, 0)], 0, 0, Min(Min(2 * size, USIZE_MAX), MAX_BLOCK_SIZE),
          0, size, 0, 0, 0, 0, [], [], 0, [], 0)
  }

  // ----- allocation ------------------------------------------------------------------------------

  /** Address the fast path would return. */
  function BumpAddress(s: State, align: nat): nat
    requires Shape(s) && align > 0
  {
    RoundUp(s.blocks[s.current].base + s.used, align)
  }

  predicate BumpFits(s: State, size: nat, align: nat)
    requires Shape(s) && align > 0
  {
    var b := s.blocks[s.current];
    BumpAddress(s, align) + size <= USIZE_MAX && BumpAddress(s, align) + size <= b.base + b.capacity
  }

  function Bump(s: State, size: nat, align: nat): State
    requires Shape(s) && align > 0
  {
    var start := BumpAddress(s, align) - s.blocks[s.current].base;
    s.(used := start + size, live := s.live + [Region(s.current, start, size, align, 0, None)])
  }

  /** `finish_slow_path`. */
  function Flush(s: State): State
    requires Shape(s)
  {
    s.(bytesAllocated := s.bytesAllocated + s.used,
       blocks := s.blocks[s.current := s.blocks[s.current].(offset := s.used)])
  }

  /** Takes `size` bytes at `start` in block `i` and makes that block current. */
  function Enter(s: State, i: nat, start: nat, size: nat, align: nat): State
    requires i < |s.blocks| && s.largestIdx < |s.blocks| && s.blocks[i].offset <= start
  {
    var b := s.blocks[i];
    var delta := start + size - b.offset;
    var t := s.(blocks := s.blocks[i := b.(offset := start + size)],
                bytesAllocated := s.bytesAllocated + delta,
                live := s.live + [Region(i, start, size, align, delta, None)]);
    SetCurrent(t, i)
  }

  /** First block at or after `i` that can take the request. */
  function Scan(blocks: seq<Blk>, size: nat, align: nat, i: nat): (r: Option<nat>)
    requires align > 0
    ensures r.Some? ==> i <= r.value < |blocks| && Fit(blocks[r.value], size, align).Some?
    decreases |blocks| - i
  {
    if i >= |blocks| then None
    else if blocks[i].align >= align && Fit(blocks[i], size, align).Some? then Some(i)
    else Scan(blocks, size, align, i + 1)
  }

  /** Size of the next block and the new growth setting; `None` is the overflow panic. */
  function NextBlockFor(next: nat, size: nat, align: nat): Option<(nat, nat)>
    requires align > 0
  {
    var worst := size + (align - 1);
    if worst > USIZE_MAX then None
    else
      var wanted := Max(Max(next, worst), align * 2);
      var pow := if NextPow2(wanted) <= USIZE_MAX then NextPow2(wanted) else USIZE_MAX;
      var rounded := Max(Max(Min(pow, MAX_BLOCK_SIZE), worst), align * 2);
      Some((rounded, Min(Min(rounded + rounded / 2, USIZE_MAX), MAX_BLOCK_SIZE)))
  }

  function Refusal(fallible: bool): Outcome {
    if fallible then Failed else Panicked
  }

  /** `alloc_new_block` and `try_alloc_new_block`. */
  function OpenBlock(s: State, size: nat, align: nat, fallible: bool, os: Option<nat>): (State, Outcome)
    requires Shape(s) && align > 0
  {
    match NextBlockFor(s.nextSize, size, align)
    case None => (s, Panicked)
    case Some((capacity, next)) =>
      var t := s.(nextSize := next);
      match os
      case None => (t, Refusal(fallible))
      case Some(base) =>
        var b := Blk(base, capacity, Max(align, MIN_BLOCK_ALIGN), 0);
        match Fit(b, size, align)
        case None => (t, Refusal(fallible))
        case Some(start) =>
          var u := t.(blocks := t.blocks + [b], bytesReserved := t.bytesReserved + capacity);
          (Enter(u, |t.blocks|, start, size, align), Placed(|t.blocks|, start))
  }

  /** `alloc_slow` and `alloc_slow_try` on a flushed state `t`. */
  function ServeFlushed(t: State, size: nat, align: nat, fallible: bool, os: Option<nat>): (State, Outcome)
    requires Shape(t) && align > 0
  {
    if align > MIN_BLOCK_ALIGN || size > t.largest then OpenBlock(t, size, align, fallible, os)
    else
      match Scan(t.blocks, size, align, t.current + 1)
      case Some(i) =>
        var start := Fit(t.blocks[i], size, align).value;
        (Enter(t, i, start, size, align), Placed(i, start))
      case None => OpenBlock(t, size, align, fallible, os)
  }

  /** The slow path; a refused request leaves the flushed bytes counted a second time. */
  function Slow(s: State, size: nat, align: nat, fallible: bool, os: Option<nat>): (State, Outcome)
    requires Shape(s) && align > 0
  {
    var (t, out) := ServeFlushed(Flush(s), size, align, fallible, os);
    if out.Placed? then (t, out) else (t.(recounted := t.recounted + s.used), out)
  }

  /** `alloc_raw_inner` (`fallible` false) and `try_alloc_raw_inner` (`fallible` true). */
  function Alloc(s: State, size: nat, align: nat, fallible: bool, os: Option<nat>): (State, Outcome)
    requires Shape(s) && align > 0
  {
    if align > MIN_BLOCK_ALIGN then Slow(s, size, align, fallible, os)
    else if fallible && BumpAddress(s, align) + size > USIZE_MAX then (s, Failed)
    else if BumpFits(s, size, align) then
      (Bump(s, size, align), Placed(s.current, BumpAddress(s, align) - s.blocks[s.current].base))
    else Slow(s, size, align, fallible, os)
  }

  /** The system allocator's answer, if it is asked, is a block it may return. */
  predicate OsOk(s: State, size: nat, align: nat, os: Option<nat>)
    requires align > 0
  {
    var want := NextBlockFor(s.nextSize, size, align);
    os.Some? && want.Some? ==> FreshBlock(s.blocks, os.value, want.value.0, Max(align, MIN_BLOCK_ALIGN))
  }

  /** Extends the newest live region to `size` bytes: the in-place growth of `ArenaVec`. */
  function GrowNewest(s: State, size: nat): State
    requires s.live != []
  {
    var n := |s.live| - 1;
    s.(used := s.live[n].off + size, live := s.live[n := s.live[n].(size := size)])
  }

  // ----- destructor log --------------------------------------------------------------------------

  /** How a value's destructor is registered: not at all, as one element, or as a slice. */
  datatype DropKind = NoDrop | One | Many(count: nat)

  function SlotFor(kind: DropKind, id: nat): Option<DropSlot> {
    match kind
    case NoDrop => None
    case One => Some(Single(id))
    case Many(n) => if n > 0 then Some(Range(id, n)) else None
  }

  /** Registers the newest live region's destructor. */
  function Register(s: State, kind: DropKind): State
    requires s.live != []
  {
    match SlotFor(kind, s.serial)
    case None => s
    case Some(slot) =>
      var n := |s.live| - 1;
      s.(slots := s.slots + [slot], serial := s.serial + 1, live := s.live[n := s.live[n].(slot := Some(slot))])
  }

  datatype Request = Request(size: nat, align: nat, fallible: bool, kind: DropKind)

  /** `alloc`, `alloc_slice` and their fallible variants: place, then register. */
  function Serve(s: State, r: Request, os: Option<nat>): (State, Outcome)
    requires Shape(s) && r.align > 0
  {
    var (t, out) := Alloc(s, r.size, r.align, r.fallible, os);
    if out.Placed? && t.live != [] then (Register(t, r.kind), out) else (t, out)
  }

  function SlotsOf(live: seq<Region>): seq<DropSlot> {
    if live == [] then []
    else
      var n := |live| - 1;
      SlotsOf(live[..n]) + if live[n].slot.Some? then [live[n].slot.value] else []
  }

  // ----- checkpoint, rewind, reset ---------------------------------------------------------------

  function Cp(s: State): Checkpoint {
    Checkpoint(s.current, s.used, s.bytesAllocated + s.used, |s.slots|, |s.live|, s.recounted)
  }

  /** Zeroes the offsets of blocks `lo..=hi`. */
  function ZeroOffsets(blocks: seq<Blk>, lo: nat, hi: nat): (r: seq<Blk>)
    ensures |r| == |blocks|
    ensures forall j :: 0 <= j < |blocks| ==> r[j] == if lo <= j <= hi then blocks[j].(offset := 0) else blocks[j]
  {
    seq(|blocks|, j requires 0 <= j < |blocks| => if lo <= j <= hi then blocks[j].(offset := 0) else blocks[j])
  }

  /** A checkpoint this state may be rewound to, as far as the indices go. */
  predicate InRange(s: State, cp: Checkpoint) {
    && cp.block < |s.blocks| && s.largestIdx < |s.blocks|
    && cp.offset <= cp.bytes && cp.dropLen <= |s.slots| && cp.liveLen <= |s.live|
  }

  /** Space reclamation of `rewind`, after the destructors have run. */
  function Reclaim(s: State, cp: Checkpoint): State
    requires InRange(s, cp)
  {
    var zeroed := ZeroOffsets(s.blocks, cp.block + 1, s.current);
    var t := s.(blocks := zeroed[cp.block := zeroed[cp.block].(offset := cp.offset)],
                bytesAllocated := cp.bytes - cp.offset,
                live := s.live[..cp.liveLen], recounted := cp.recounted);
    SetCurrent(t, cp.block)
  }

  /** Runs and removes the slots at or past `cp.dropLen`. */
  function Unregister(s: State, target: nat, bad: set<Elem>): State
    requires target <= |s.slots|
  {
    s.(slots := s.slots[..target], ran := s.ran + Drain(s.slots, target, |s.slots|, bad))
  }

  /** Live regions past `n` whose destructors have run: they stay allocated but owe no drop. */
  function Forget(live: seq<Region>, n: nat): (r: seq<Region>)
    ensures |r| == |live|
    ensures forall j :: 0 <= j < |live| ==> r[j] == if j < n then live[j] else live[j].(slot := None)
  {
    seq(|live|, j requires 0 <= j < |live| => if j < n then live[j] else live[j].(slot := None))
  }

  /** `rewind`. A panicking destructor is re-raised before any space is reclaimed. */
  function Rewind(s: State, cp: Checkpoint, bad: set<Elem>): State
    requires InRange(s, cp)
  {
    var t := Unregister(s, cp.dropLen, bad);
    if AnyPanics(s.slots, cp.dropLen, |s.slots|, bad) then t.(live := Forget(s.live, cp.liveLen))
    else Reclaim(t, cp)
  }

  /** Space reclamation of `reset`, after the destructors have run. */
  function ReclaimAll(s: State): State
    requires Shape(s)
  {
    var blocks := ZeroOffsets(s.blocks, 0, s.highWater);
    var (best, at) := LargestIn(Capacities(blocks), 0, |blocks|);
    s.(blocks := blocks, highWater := 0, bytesAllocated := 0, current := 0, used := 0,
       largest := best, largestIdx := at, live := [], recounted := 0)
  }

  function Reset(s: State, bad: set<Elem>): State
    requires Shape(s)
  {
    var t := Unregister(s, 0, bad);
    if AnyPanics(s.slots, 0, |s.slots|, bad) then t.(live := Forget(s.live, 0))
    else ReclaimAll(t)
  }
}

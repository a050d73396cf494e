/**
 Checkpoints: what `rewind` restores, what it keeps, how rewinds compose, and why `reset` needs
 to visit only the blocks up to the high-water mark.
 */
module Rewinding {
  import opened Wrappers
  import opened Drops
  import opened ArenaModel
  import opened ArenaInvariants

  // ----- reached without going below a checkpoint ------------------------------------------------

  /** Bytes in use that are not payload. */
  function Padding(s: State): int
    requires s.current < |s.blocks|
  {
    InUse(s) - Payload(s.live)
  }

  /** `s` was reached from `m` without rewinding below `m`: a checkpoint taken at `m` is valid in `s`. */
  ghost predicate Since(m: State, s: State) {
    && m.current < |m.blocks| <= |s.blocks| && s.current < |s.blocks|
    && m.current <= s.current
    && (forall j :: 0 <= j < |m.blocks| ==> s.blocks[j] == m.blocks[j].(offset := s.blocks[j].offset))
    && (forall j :: 0 <= j < m.current ==> s.blocks[j].offset == m.blocks[j].offset)
    && m.used <= Used(s, m.current)
    && m.live <= s.live && m.slots <= s.slots
    && m.recounted <= s.recounted && Padding(m) <= Padding(s)
  }

  lemma SinceSelf(s: State)
    requires Inv(s)
    ensures Since(s, s)
  {}

  lemma SinceTransitive(a: State, b: State, c: State)
    requires Since(a, b) && Since(b, c)
    ensures Since(a, c)
  {}

  /** A step that only appends one region, and takes at least its size, stays above `s`. */
  lemma SinceAppended(s: State, t: State, r: Region)
    requires s.current < |s.blocks| && t.live == s.live + [r] && t.slots == s.slots && t.recounted == s.recounted
    requires |s.blocks| <= |t.blocks| && s.current <= t.current < |t.blocks|
    requires forall j :: 0 <= j < |s.blocks| ==> t.blocks[j] == s.blocks[j].(offset := t.blocks[j].offset)
    requires forall j :: 0 <= j < s.current ==> t.blocks[j].offset == s.blocks[j].offset
    requires s.used <= Used(t, s.current) && InUse(s) + r.size <= InUse(t)
    ensures Since(s, t)
  {}

  lemma SinceAllocated(s: State, t: State, out: Outcome, size: nat, align: nat)
    requires Inv(s) && Allocated(s, t, out, size, align)
    ensures Inv(t) && Since(s, t)
  {
    AllocatedKeepsInv(s, t, out, size, align);
    if out.Placed? {
      AllocatedShape(s, t, out, size, align);
      SinceAppended(s, t, t.live[|s.live|]);
    }
  }

  lemma AllocatedShape(s: State, t: State, out: Outcome, size: nat, align: nat)
    requires CursorOk(s) && out.Placed? && Allocated(s, t, out, size, align)
    ensures |t.live| == |s.live| + 1 && t.live == s.live + [t.live[|s.live|]]
    ensures t.slots == s.slots && t.recounted == s.recounted
    ensures |s.blocks| <= |t.blocks| && s.current <= t.current < |t.blocks|
    ensures forall j :: 0 <= j < |s.blocks| ==> t.blocks[j] == s.blocks[j].(offset := t.blocks[j].offset)
    ensures forall j :: 0 <= j < s.current ==> t.blocks[j].offset == s.blocks[j].offset
    ensures s.used <= Used(t, s.current)
    ensures t.live[|s.live|].blk == out.blk && t.live[|s.live|].off == out.off && t.live[|s.live|].size == size
    ensures t.live[|s.live|].align == align && t.live[|s.live|].slot.None?
  {}

  /** The newest region may be replaced as long as it is newer than the checkpoint. */
  lemma SinceRenewed(m: State, s: State, t: State, r: Region)
    requires Inv(s) && Since(m, s) && |m.live| < |s.live| && Renewed(s, t, r)
    ensures Inv(t) && Since(m, t)
  {
    RenewedKeepsInv(s, t, r);
    RenewedPayload(s, t, r);
    RenewedSince(m, s, t, r);
  }

  lemma RenewedPayload(s: State, t: State, r: Region)
    requires Renewed(s, t, r)
    ensures Payload(t.live) == Payload(s.live) + (r.size - s.live[|s.live| - 1].size)
  {}

  lemma RenewedSince(m: State, s: State, t: State, r: Region)
    requires CursorOk(s) && Since(m, s) && |m.live| < |s.live| && Renewed(s, t, r)
    requires Padding(t) == Padding(s)
    ensures Since(m, t)
  {}

  // ----- rewinding -------------------------------------------------------------------------------

  /** Offset of block `j` once the arena stands where it stood at `m`. */
  function OffsetAt(m: State, j: nat): nat
    requires m.current < |m.blocks|
  {
    if j < m.current then m.blocks[j].offset else if j == m.current then m.used else 0
  }

  /** `t` is `s` put back to where it stood at `m`; blocks opened since are kept, empty. */
  ghost predicate Restored(m: State, s: State, t: State) {
    && m.current < |m.blocks| <= |s.blocks| == |t.blocks|
    && (forall j :: 0 <= j < |s.blocks| ==> t.blocks[j] == s.blocks[j].(offset := OffsetAt(m, j)))
    && t.current == m.current && t.used == m.used && t.live == m.live && t.slots == m.slots
    && t.bytesAllocated == m.bytesAllocated && t.recounted == m.recounted
    && t.bytesReserved == s.bytesReserved && t.nextSize == s.nextSize && t.depth == s.depth
    && t.highWater == s.highWater && t.serial == s.serial
    && CacheOk(t)
  }

  predicate NoPanic(s: State, target: nat, bad: set<Elem>) {
    !AnyPanics(s.slots, target, |s.slots|, bad)
  }

  /** The outcome of a rewind from `s` to a checkpoint taken at `m` in which no destructor panics. */
  ghost predicate Rewound(m: State, s: State, t: State, bad: set<Elem>) {
    && Restored(m, s, t)
    && t.ran == s.ran + Drain(s.slots, |m.slots|, |s.slots|, bad)
    && t.largestIdx == s.largestIdx < |s.blocks|
    && t.largest == if s.largestIdx > m.current then s.blocks[s.largestIdx].capacity else 0
  }

  /**
   A rewind in which no destructor panics restores the checkpointed placement and reported bytes
   exactly, keeps every block opened since, and never changes which block the cache names.
   */
  lemma RewindRestores(m: State, s: State, bad: set<Elem>)
    requires CursorOk(m) && Since(m, s) && NoPanic(s, |m.slots|, bad)
    requires BlocksOk(s.blocks) && CursorOk(s) && CacheOk(s)
    ensures InRange(s, Cp(m)) && Rewound(m, s, Rewind(s, Cp(m), bad), bad)
    ensures Reported(Rewind(s, Cp(m), bad)) == Reported(m)
  {}

  lemma RestoredPlaces(m: State, s: State, t: State)
    requires BlocksOk(m.blocks) && CursorOk(m) && LiveOk(m)
    requires BlocksOk(s.blocks) && CursorOk(s) && Since(m, s) && Restored(m, s, t)
    ensures BlocksOk(t.blocks) && CursorOk(t) && LiveOk(t) && TotalCapacity(t.blocks) == TotalCapacity(s.blocks)
  {
    assert SameBlocks(s.blocks, t.blocks) by {
      assert BlkOk(m.blocks[m.current]);
    }
    SameBlocksOk(s.blocks, t.blocks);
    KeepLive(m, t);
  }

  lemma RestoredAccounts(m: State, s: State, t: State)
    requires AccountOk(m) && AccountOk(s) && Restored(m, s, t)
    requires TotalCapacity(t.blocks) == TotalCapacity(s.blocks)
    ensures AccountOk(t) && InUse(t) == InUse(m)
  {
    SumOffsetsSame(m.blocks, t.blocks, m.current);
  }

  lemma SinceRestored(m: State, s: State, t: State)
    requires Since(m, s) && Restored(m, s, t) && InUse(t) == InUse(m)
    ensures Since(m, t)
  {}

  lemma RestoredKeepsInv(m: State, s: State, t: State)
    requires Inv(m) && Inv(s) && Since(m, s) && Restored(m, s, t)
    ensures Inv(t) && Since(m, t) && InUse(t) == InUse(m)
  {
    RestoredPlaces(m, s, t);
    RestoredAccounts(m, s, t);
    SinceRestored(m, s, t);
  }

  /** Live regions past `n` owe no destructor any more; everything else but the log is untouched. */
  ghost predicate Forgotten(s: State, t: State, n: nat, slots: seq<DropSlot>) {
    n <= |s.live| && t == s.(live := Forget(s.live, n), slots := slots, ran := t.ran)
  }

  lemma ForgottenKeepsInv(s: State, t: State, n: nat, slots: seq<DropSlot>)
    requires Inv(s) && Forgotten(s, t, n, slots) && slots == SlotsOf(s.live[..n])
    ensures Inv(t)
  {
    ForgetKeepsLive(s, t, n);
    ForgetSums(s.live, n);
    ForgetSlots(s.live, n);
  }

  lemma SinceForgotten(m: State, s: State, t: State)
    requires Since(m, s) && Forgotten(s, t, |m.live|, m.slots)
    ensures Since(m, t)
  {
    ForgetSums(s.live, |m.live|);
  }

  /** A rewind cut short by a panicking destructor: the log is cut, nothing is reclaimed. */
  lemma PanickedRewindKeepsInv(m: State, s: State, bad: set<Elem>)
    requires Inv(m) && Inv(s) && Since(m, s) && !NoPanic(s, |m.slots|, bad)
    ensures InRange(s, Cp(m))
    ensures var t := Rewind(s, Cp(m), bad);
            Inv(t) && Since(m, t) && Forgotten(s, t, |m.live|, m.slots)
            && t.ran == s.ran + Drain(s.slots, |m.slots|, |s.slots|, bad)
  {
    var t := Rewind(s, Cp(m), bad);
    PanickedRewindForgets(m, s, bad);
    assert s.live[..|m.live|] == m.live;
    ForgottenKeepsInv(s, t, |m.live|, m.slots);
    SinceForgotten(m, s, t);
  }

  /**
   Every rewind to a valid checkpoint leaves a sound arena in which the checkpoint is valid again.
   If no destructor panics, everything is put back; otherwise only the log is cut.
   */
  lemma RewindMeaning(m: State, s: State, bad: set<Elem>)
    requires Wellformed(m) && Wellformed(s) && Since(m, s)
    ensures InRange(s, Cp(m))
    ensures var t := Rewind(s, Cp(m), bad);
            && Wellformed(t) && Since(m, t) && t.slots == m.slots
            && t.ran == s.ran + Drain(s.slots, |m.slots|, |s.slots|, bad)
            && if NoPanic(s, |m.slots|, bad) then Rewound(m, s, t, bad) && Reported(t) == Reported(m)
               else Forgotten(s, t, |m.live|, m.slots)
  {
    WellformedMeans(m);
    WellformedMeans(s);
    if NoPanic(s, |m.slots|, bad) {
      RewindRestores(m, s, bad);
      RestoredKeepsInv(m, s, Rewind(s, Cp(m), bad));
    } else {
      PanickedRewindKeepsInv(m, s, bad);
    }
    WellformedMeans(Rewind(s, Cp(m), bad));
  }

  lemma PanickedRewindForgets(m: State, s: State, bad: set<Elem>)
    requires CursorOk(s) && Since(m, s) && !NoPanic(s, |m.slots|, bad)
    ensures InRange(s, Cp(m))
    ensures var t := Rewind(s, Cp(m), bad);
            && Forgotten(s, t, |m.live|, m.slots)
            && t.ran == s.ran + Drain(s.slots, |m.slots|, |s.slots|, bad)
  {}

  lemma ForgetKeepsLive(s: State, t: State, n: nat)
    requires CursorOk(s) && LiveOk(s) && Forgotten(s, t, n, t.slots)
    ensures CursorOk(t) && LiveOk(t)
  {
    forall k | 0 <= k < |t.live| ensures InBlock(t, t.live[k]) {
      assert InBlock(s, s.live[k]);
    }
    ForgetOrder(s.live, n);
  }

  lemma ForgetOrder(live: seq<Region>, n: nat)
    requires forall i, k :: 0 <= i < k < |live| ==> Ordered(live, i, k)
    ensures forall i, k :: 0 <= i < k < |live| ==> Ordered(Forget(live, n), i, k)
  {
    forall i, k | 0 <= i < k < |live| ensures Ordered(Forget(live, n), i, k) {
      assert Ordered(live, i, k);
    }
  }

  lemma ForgetPeel(live: seq<Region>, n: nat)
    requires n < |live|
    ensures var k := |live| - 1; Forget(live, n) == Forget(live[..k], n) + [live[k].(slot := None)]
  {}

  lemma {:induction false} ForgetSums(live: seq<Region>, n: nat)
    requires n <= |live|
    ensures Entering(Forget(live, n)) == Entering(live) && Payload(Forget(live, n)) == Payload(live)
    decreases |live|
  {
    if n < |live| {
      var k := |live| - 1;
      ForgetSums(live[..k], n);
      ForgetPeel(live, n);
      LivePush(Forget(live[..k], n), live[k].(slot := None));
    } else {
      assert Forget(live, n) == live;
    }
  }

  lemma {:induction false} ForgetSlots(live: seq<Region>, n: nat)
    requires n <= |live|
    ensures SlotsOf(Forget(live, n)) == SlotsOf(live[..n])
    decreases |live|
  {
    if n < |live| {
      var k := |live| - 1;
      ForgetSlots(live[..k], n);
      ForgetPeel(live, n);
      LivePush(Forget(live[..k], n), live[k].(slot := None));
      assert live[..k][..n] == live[..n];
    } else {
      assert Forget(live, n) == live == live[..n];
    }
  }

  // ----- rewind algebra --------------------------------------------------------------------------

  /** A state up to the stale offset field of its current block. */
  function Settled(s: State): State
    requires s.current < |s.blocks|
  {
    s.(blocks := s.blocks[s.current := s.blocks[s.current].(offset := s.used)])
  }

  /** Rewinding to a checkpoint just taken changes nothing, the scan cache included. */
  lemma RewindToNow(s: State, bad: set<Elem>)
    requires Inv(s)
    ensures Settled(Rewind(s, Cp(s), bad)) == Settled(s)
  {}

  /** After rewinding to `m1`, an earlier checkpoint `m0` is still valid. */
  lemma RewindKeepsEarlier(m0: State, m1: State, s: State, bad: set<Elem>)
    requires Inv(m1) && Inv(s) && Since(m0, m1) && Since(m1, s) && NoPanic(s, |m1.slots|, bad)
    ensures InRange(s, Cp(m1))
    ensures var t := Rewind(s, Cp(m1), bad);
            Rewound(m1, s, t, bad) && Inv(t) && Since(m1, t) && Since(m0, t)
  {
    RewindRestores(m1, s, bad);
    var t := Rewind(s, Cp(m1), bad);
    RestoredKeepsInv(m1, s, t);
    SinceTransitive(m0, m1, t);
  }

  /** Rewinding to a later checkpoint and then to an earlier one is rewinding to the earlier one. */
  lemma RewindTwice(m0: State, m1: State, s: State, t: State, bad: set<Elem>)
    requires Wellformed(m0) && Wellformed(m1) && Wellformed(s) && Since(m0, m1) && Since(m1, s)
    requires NoPanic(s, |m0.slots|, bad) && InRange(s, Cp(m1)) && t == Rewind(s, Cp(m1), bad)
    ensures InRange(s, Cp(m0)) && InRange(t, Cp(m0))
    ensures Rewind(t, Cp(m0), bad) == Rewind(s, Cp(m0), bad)
  {
    WellformedMeans(m0);
    WellformedMeans(m1);
    WellformedMeans(s);
    RewindDirect(m0, m1, s, bad);
    RewindAgain(m0, m1, s, t, bad);
    RewoundTwice(m0, m1, s, t, Rewind(s, Cp(m0), bad), Rewind(t, Cp(m0), bad), bad);
  }

  lemma RewindDirect(m0: State, m1: State, s: State, bad: set<Elem>)
    requires Inv(m0) && Inv(s) && Since(m0, m1) && Since(m1, s) && NoPanic(s, |m0.slots|, bad)
    ensures InRange(s, Cp(m0)) && Rewound(m0, s, Rewind(s, Cp(m0), bad), bad)
  {
    SinceTransitive(m0, m1, s);
    RewindRestores(m0, s, bad);
  }

  lemma RewindAgain(m0: State, m1: State, s: State, t: State, bad: set<Elem>)
    requires Inv(m0) && Inv(m1) && Inv(s) && Since(m0, m1) && Since(m1, s) && NoPanic(s, |m0.slots|, bad)
    requires InRange(s, Cp(m1)) && t == Rewind(s, Cp(m1), bad)
    ensures Rewound(m1, s, t, bad)
    ensures InRange(t, Cp(m0)) && Rewound(m0, t, Rewind(t, Cp(m0), bad), bad)
  {
    RewindKeepsEarlier(m0, m1, s, bad);
    FewerSlotsNoPanic(s, t, |m0.slots|, bad);
    RewindRestores(m0, t, bad);
  }

  lemma FewerSlotsNoPanic(s: State, t: State, n: nat, bad: set<Elem>)
    requires t.slots <= s.slots && NoPanic(s, n, bad)
    ensures NoPanic(t, n, bad)
  {}

  lemma RewoundTwice(m0: State, m1: State, s: State, t: State, direct: State, twice: State, bad: set<Elem>)
    requires |m0.slots| <= |m1.slots| && m1.slots <= s.slots
    requires Rewound(m1, s, t, bad) && Rewound(m0, s, direct, bad) && Rewound(m0, t, twice, bad)
    ensures direct == twice
  {
    OffsetsTwice(m0, m1, s.blocks, t.blocks, direct.blocks, twice.blocks);
    RanTwice(m1.slots, s.slots, |m0.slots|, bad, s.ran, t.ran, direct.ran, twice.ran);
  }

  lemma RanTwice(kept: seq<DropSlot>, slots: seq<DropSlot>, n: nat, bad: set<Elem>,
                 ran: seq<Run>, ran1: seq<Run>, direct: seq<Run>, twice: seq<Run>)
    requires n <= |kept| && kept <= slots
    requires ran1 == ran + Drain(slots, |kept|, |slots|, bad) && twice == ran1 + Drain(kept, n, |kept|, bad)
    requires direct == ran + Drain(slots, n, |slots|, bad)
    ensures direct == twice
  {
    DrainSplits(slots, n, |kept|, |slots|, bad);
    DrainOfPrefix(kept, slots, n, |kept|, bad);
    ConcatAssociative(ran, Drain(slots, |kept|, |slots|, bad), Drain(slots, n, |kept|, bad));
  }

  lemma ConcatAssociative<T>(a: seq<T>, b: seq<T>, c: seq<T>)
    ensures (a + b) + c == a + (b + c)
  {}

  lemma OffsetsTwice(m0: State, m1: State, s: seq<Blk>, t: seq<Blk>, direct: seq<Blk>, twice: seq<Blk>)
    requires m0.current < |m0.blocks| && m1.current < |m1.blocks|
    requires |s| == |t| == |direct| == |twice|
    requires forall j :: 0 <= j < |s| ==> t[j] == s[j].(offset := OffsetAt(m1, j))
    requires forall j :: 0 <= j < |s| ==> direct[j] == s[j].(offset := OffsetAt(m0, j))
    requires forall j :: 0 <= j < |s| ==> twice[j] == t[j].(offset := OffsetAt(m0, j))
    ensures direct == twice
    ensures forall j :: 0 <= j < |s| ==> t[j].capacity == s[j].capacity
  {}

  lemma {:induction false} DrainOfPrefix(p: seq<DropSlot>, s: seq<DropSlot>, t: nat, n: nat, bad: set<Elem>)
    requires n <= |p| && p <= s
    ensures Drain(p, t, n, bad) == Drain(s, t, n, bad)
  {
    if t < n {
      DrainOfPrefix(p, s, t, n - 1, bad);
    }
  }

  /**
   A refused request moves no cursor and no region, and rewinding to a checkpoint taken before it
   restores the checkpointed byte count exactly, recounted bytes included.
   */
  lemma RefusalIsUndone(m: State, s: State, t: State, out: Outcome, size: nat, align: nat, bad: set<Elem>)
    requires Wellformed(m) && Wellformed(s) && Since(m, s) && NoPanic(t, |m.slots|, bad)
    requires !out.Placed? && Allocated(s, t, out, size, align)
    ensures t.current == s.current && t.used == s.used && t.live == s.live && t.slots == s.slots
    ensures InRange(t, Cp(m)) && Restored(m, t, Rewind(t, Cp(m), bad))
    ensures Reported(Rewind(t, Cp(m), bad)) == Reported(m)
  {
    WellformedMeans(m);
    WellformedMeans(s);
    SinceAllocated(s, t, out, size, align);
    SinceTransitive(m, s, t);
    RewindRestores(m, t, bad);
  }

  // ----- reset -----------------------------------------------------------------------------------

  /** Every block empty, the cursor at the start of block 0, and the cache naming the largest later block. */
  ghost predicate Emptied(s: State, t: State) {
    && |t.blocks| == |s.blocks|
    && (forall j :: 0 <= j < |s.blocks| ==> t.blocks[j] == s.blocks[j].(offset := 0))
    && t.current == 0 && t.used == 0 && t.highWater == 0
    && t.live == [] && t.slots == [] && t.bytesAllocated == 0 && t.recounted == 0
    && t.bytesReserved == s.bytesReserved && t.nextSize == s.nextSize && t.depth == s.depth && t.serial == s.serial
    && CacheOk(t)
    && forall j :: 0 < j < |t.blocks| ==> t.blocks[j].capacity <= t.largest
  }

  /**
   Zeroing only the blocks up to the high-water mark empties every block: the current block never
   passes the mark and blocks beyond the current one are empty already.
   */
  lemma ResetEmpties(s: State, bad: set<Elem>)
    requires BlocksOk(s.blocks) && CursorOk(s) && NoPanic(s, 0, bad)
    ensures Emptied(s, Reset(s, bad)) && Reset(s, bad).ran == s.ran + Drain(s.slots, 0, |s.slots|, bad)
  {
    var blocks := ZeroOffsets(s.blocks, 0, s.highWater);
    forall j | 0 <= j < |blocks| ensures blocks[j] == s.blocks[j].(offset := 0) {}
    LargestInMeaning(Capacities(blocks), 0, |blocks|);
    if 1 < |blocks| {
      assert Capacities(blocks)[1] > 0;
    }
  }

  lemma EmptiedKeepsInv(s: State, t: State)
    requires Inv(s) && Emptied(s, t)
    ensures Inv(t)
  {
    SameBlocksOk(s.blocks, t.blocks);
  }

  /**
   Every reset leaves a sound arena and drains the whole log. If no destructor panics every block is
   empty; otherwise cursor, blocks and counters stay, and the live regions owe no destructor any more.
   */
  lemma {:induction false} ResetMeaning(s: State, bad: set<Elem>)
    requires Wellformed(s)
    ensures Shape(s)
    ensures var t := Reset(s, bad);
            && Wellformed(t) && t.slots == [] && t.ran == s.ran + Drain(s.slots, 0, |s.slots|, bad)
            && if NoPanic(s, 0, bad) then Emptied(s, t) else Forgotten(s, t, 0, [])
  {
    WellformedMeans(s);
    ResetKeepsInv(s, bad);
    WellformedMeans(Reset(s, bad));
    if NoPanic(s, 0, bad) {
      ResetEmpties(s, bad);
    }
  }

  lemma ResetKeepsInv(s: State, bad: set<Elem>)
    requires Inv(s)
    ensures Inv(Reset(s, bad))
  {
    if NoPanic(s, 0, bad) {
      ResetEmpties(s, bad);
      EmptiedKeepsInv(s, Reset(s, bad));
    } else {
      assert s.live[..0] == [] && s.slots[..0] == [];
      ForgottenKeepsInv(s, Reset(s, bad), 0, []);
    }
  }
}

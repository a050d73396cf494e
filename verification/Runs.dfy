/**
 Whole runs of the arena: any mix of allocations, in-place growth, checkpoints, rewinds to any
 checkpoint still held, resets and writes through handles. Memory safety, byte preservation and
 destructor accounting hold in every reachable state.
 */
module Runs {
  import opened Bits
  import opened Wrappers
  import opened Drops
  import opened ArenaModel
  import opened ArenaInvariants
  import opened Rewinding
  import opened Replay

  type Memory = (nat, nat) -> byte  // contents by block and offset; unopened blocks hold anything

  datatype Op =
    | Serving(req: Request, os: Option<nat>, payload: seq<byte>)
    | Mark
    | RewindTo(k: nat, bad: set<Elem>)
    | ResetAll(bad: set<Elem>)
    | Grow(size: nat)
    | Write(k: nat, at: nat, bytes: seq<byte>)

  /**
   The arena, its memory, the states at which the checkpoints still held were taken, and every
   destructor slot ever registered.
   */
  datatype World = World(s: State, mem: Memory, marks: seq<State>, granted: seq<DropSlot>)

  function Store(mem: Memory, blk: nat, off: nat, bytes: seq<byte>): Memory {
    (b: nat, o: nat) => if b == blk && off <= o < off + |bytes| then bytes[o - off] else mem(b, o)
  }

  /** The run may perform `op` next: what the borrow checker and the system allocator guarantee. */
  ghost predicate Enabled(w: World, op: Op)
    requires Shape(w.s)
  {
    match op
    case Serving(r, os, payload) =>
      r.size > 0 && ValidAlign(r.align) && |payload| == r.size && OsOk(w.s, r.size, r.align, os)
    case Mark => true
    case RewindTo(k, _) => k < |w.marks|
    case ResetAll(_) => true
    case Grow(size) =>
      && w.s.live != [] && (w.marks != [] ==> |w.marks[|w.marks| - 1].live| < |w.s.live|)
      && w.s.live[|w.s.live| - 1].size <= size
      && w.s.live[|w.s.live| - 1].off + size <= w.s.blocks[w.s.current].capacity
    case Write(k, at, bytes) => k < |w.s.live| && at + |bytes| <= w.s.live[k].size
  }

  /** A held checkpoint is usable: it was taken in a sound state the arena never went below. */
  ghost predicate Held(m: State, s: State) {
    Wellformed(m) && Since(m, s)
  }

  predicate Later(marks: seq<State>, i: int, k: int) {
    0 <= i < k < |marks|
  }

  ghost predicate MarksOk(s: State, marks: seq<State>) {
    && (forall i :: 0 <= i < |marks| ==> Held(marks[i], s))
    && (forall i, k :: Later(marks, i, k) ==> Held(marks[i], marks[k]))
  }

  // ----- destructor accounting -------------------------------------------------------------------

  function RanSlots(ran: seq<Run>): multiset<DropSlot> {
    if ran == [] then multiset{} else multiset{ran[0].slot} + RanSlots(ran[1..])
  }

  lemma {:induction false} RanSlotsConcat(a: seq<Run>, b: seq<Run>)
    ensures RanSlots(a + b) == RanSlots(a) + RanSlots(b)
  {
    if a == [] {
      assert a + b == b;
    } else {
      assert (a + b)[1..] == a[1..] + b;
      RanSlotsConcat(a[1..], b);
    }
  }

  /** A drain runs each slot it removes exactly once. */
  lemma {:induction false} DrainRunsOnce(slots: seq<DropSlot>, t: nat, n: nat, bad: set<Elem>)
    requires t <= n <= |slots|
    ensures RanSlots(Drain(slots, t, n, bad)) + multiset(slots[..t]) == multiset(slots[..n])
  {
    forall x ensures RanSlots(Drain(slots, t, n, bad))[x] + multiset(slots[..t])[x] == multiset(slots[..n])[x] {
      DrainCounts(slots, t, n, bad, x);
    }
  }

  lemma {:induction false} DrainCounts(slots: seq<DropSlot>, t: nat, n: nat, bad: set<Elem>, x: DropSlot)
    requires t <= n <= |slots|
    ensures RanSlots(Drain(slots, t, n, bad))[x] + multiset(slots[..t])[x] == multiset(slots[..n])[x]
    decreases n
  {
    if t < n {
      DrainCounts(slots, t, n - 1, bad, x);
      DrainFirst(slots, t, n, bad);
      FirstGrows(slots, n);
    } else {
      DrainNone(slots, t, bad);
    }
  }

  lemma DrainNone(slots: seq<DropSlot>, t: nat, bad: set<Elem>)
    requires t <= |slots|
    ensures RanSlots(Drain(slots, t, t, bad)) == multiset{}
  {}

  lemma DrainFirst(slots: seq<DropSlot>, t: nat, n: nat, bad: set<Elem>)
    requires t < n <= |slots|
    ensures RanSlots(Drain(slots, t, n, bad)) == multiset{slots[n - 1]} + RanSlots(Drain(slots, t, n - 1, bad))
  {
    assert Drain(slots, t, n, bad)[1..] == Drain(slots, t, n - 1, bad);
  }

  lemma FirstGrows(slots: seq<DropSlot>, n: nat)
    requires 0 < n <= |slots|
    ensures multiset(slots[..n]) == multiset(slots[..n - 1]) + multiset{slots[n - 1]}
  {
    assert slots[..n] == slots[..n - 1] + [slots[n - 1]];
  }

  /**
   Every slot ever registered is still pending or has been run exactly once, and serial numbers
   tell slots apart.
   */
  ghost predicate LogOk(s: State, granted: seq<DropSlot>) {
    && multiset(granted) == RanSlots(s.ran) + multiset(s.slots)
    && (forall i :: 0 <= i < |granted| ==> granted[i].id < s.serial)
    && (forall i, j :: 0 <= i < j < |granted| ==> granted[i].id < granted[j].id)
  }

  lemma UnregisterKeepsLog(s: State, t: State, granted: seq<DropSlot>, n: nat, bad: set<Elem>)
    requires LogOk(s, granted) && n <= |s.slots|
    requires t.slots == s.slots[..n] && t.ran == s.ran + Drain(s.slots, n, |s.slots|, bad) && t.serial == s.serial
    ensures LogOk(t, granted)
  {
    RanSlotsConcat(s.ran, Drain(s.slots, n, |s.slots|, bad));
    DrainRunsOnce(s.slots, n, |s.slots|, bad);
    assert s.slots[..|s.slots|] == s.slots;
  }

  lemma RegisterKeepsLog(s: State, t: State, granted: seq<DropSlot>, slot: DropSlot)
    requires LogOk(s, granted) && slot.id == s.serial
    requires t.slots == s.slots + [slot] && t.ran == s.ran && t.serial == s.serial + 1
    ensures LogOk(t, granted + [slot])
  {}

  /** No slot is ever run twice, and none is run while still pending. */
  lemma RunAtMostOnce(s: State, granted: seq<DropSlot>, slot: DropSlot)
    requires LogOk(s, granted)
    ensures RanSlots(s.ran)[slot] + multiset(s.slots)[slot] == (if slot in granted then 1 else 0)
  {
    DistinctMultiplicity(granted, slot);
  }

  lemma {:induction false} DistinctMultiplicity(granted: seq<DropSlot>, slot: DropSlot)
    requires forall i, j :: 0 <= i < j < |granted| ==> granted[i].id < granted[j].id
    ensures multiset(granted)[slot] == (if slot in granted then 1 else 0)
    decreases |granted|
  {
    if granted != [] {
      var rest, last := granted[..|granted| - 1], granted[|granted| - 1];
      assert granted == rest + [last];
      DistinctMultiplicity(rest, slot);
    }
  }

  // ----- the run machine -------------------------------------------------------------------------

  function NewSlots(s: State, t: State): seq<DropSlot> {
    if |t.slots| > |s.slots| then t.slots[|s.slots|..] else []
  }

  function Step(w: World, op: Op): World
    requires Shape(w.s)
  {
    match op
    case Serving(r, os, payload) =>
      if r.align == 0 then w
      else
        var (t, out) := Serve(w.s, r, os);
        World(t, if out.Placed? then Store(w.mem, out.blk, out.off, payload) else w.mem, w.marks,
              w.granted + NewSlots(w.s, t))
    case Mark => w.(marks := w.marks + [w.s])
    case RewindTo(k, bad) =>
      if k < |w.marks| && InRange(w.s, Cp(w.marks[k]))
      then w.(s := Rewind(w.s, Cp(w.marks[k]), bad), marks := w.marks[..k + 1])
      else w
    case ResetAll(bad) => w.(s := Reset(w.s, bad), marks := [])
    case Grow(size) => if w.s.live == [] then w else w.(s := GrowNewest(w.s, size))
    case Write(k, at, bytes) =>
      if k < |w.s.live| then w.(mem := Store(w.mem, w.s.live[k].blk, w.s.live[k].off + at, bytes)) else w
  }

  datatype RunLaw = ArenaSound | CheckpointsHeld | LogExact

  ghost predicate HoldsIn(law: RunLaw, w: World) {
    match law
    case ArenaSound => Inv(w.s)
    case CheckpointsHeld => MarksOk(w.s, w.marks)
    case LogExact => LogOk(w.s, w.granted)
  }

  /** The invariant of every reachable world. */
  ghost predicate Sound(w: World) {
    forall law: RunLaw :: HoldsIn(law, w)
  }

  lemma SoundMeans(w: World)
    ensures Sound(w) <==> Inv(w.s) && MarksOk(w.s, w.marks) && LogOk(w.s, w.granted)
  {
    if Sound(w) {
      assert HoldsIn(ArenaSound, w) && HoldsIn(CheckpointsHeld, w) && HoldsIn(LogExact, w);
    }
  }

  // ----- each step keeps the laws ----------------------------------------------------------------

  lemma MarksAdvance(s: State, t: State, marks: seq<State>)
    requires MarksOk(s, marks) && Since(s, t)
    ensures MarksOk(t, marks)
  {
    forall i | 0 <= i < |marks| ensures Held(marks[i], t) {
      assert Held(marks[i], s);
      SinceTransitive(marks[i], s, t);
    }
  }

  lemma MarkKeeps(w: World)
    requires Sound(w)
    ensures Sound(w.(marks := w.marks + [w.s]))
  {
    SoundMeans(w);
    SinceSelf(w.s);
    var marks := w.marks + [w.s];
    forall i, k | Later(marks, i, k) ensures Held(marks[i], marks[k]) {
      if k < |w.marks| {
        assert Later(w.marks, i, k);
      }
    }
    SoundMeans(w.(marks := marks));
  }

  lemma LogAdvance(s: State, t: State, granted: seq<DropSlot>)
    requires LogOk(s, granted) && LogStep(s, t) && s.slots <= t.slots
    ensures LogOk(t, granted + NewSlots(s, t))
  {
    if t.slots == s.slots {
      assert granted + NewSlots(s, t) == granted;
    } else {
      assert NewSlots(s, t) == [t.slots[|s.slots|]];
      RegisterKeepsLog(s, t, granted, t.slots[|s.slots|]);
    }
  }

  lemma ServeKeeps(s: State, r: Request, os: Option<nat>, marks: seq<State>)
    requires Inv(s) && MarksOk(s, marks) && r.size > 0 && ValidAlign(r.align) && OsOk(s, r.size, r.align, os)
    ensures var t := Serve(s, r, os).0; Inv(t) && MarksOk(t, marks) && LogStep(s, t) && s.slots <= t.slots
  {
    ServeMeaning(s, r, os);
    MarksAdvance(s, Serve(s, r, os).0, marks);
  }

  lemma ServingKeeps(w: World, r: Request, os: Option<nat>, payload: seq<byte>)
    requires Sound(w) && Shape(w.s) && Enabled(w, Serving(r, os, payload))
    ensures forall mem :: Sound(World(Serve(w.s, r, os).0, mem, w.marks, w.granted + NewSlots(w.s, Serve(w.s, r, os).0)))
  {
    SoundMeans(w);
    ServeKeeps(w.s, r, os, w.marks);
    var t := Serve(w.s, r, os).0;
    LogAdvance(w.s, t, w.granted);
    forall mem {
      SoundMeans(World(t, mem, w.marks, w.granted + NewSlots(w.s, t)));
    }
  }

  lemma MarksRewind(s: State, t: State, marks: seq<State>, k: nat)
    requires MarksOk(s, marks) && k < |marks| && Since(marks[k], t)
    ensures MarksOk(t, marks[..k + 1])
  {
    var kept := marks[..k + 1];
    forall i | 0 <= i < |kept| ensures Held(kept[i], t) {
      assert Held(marks[i], s);
      if i < k {
        assert Later(marks, i, k);
        assert Held(marks[i], marks[k]);
        SinceTransitive(marks[i], marks[k], t);
      }
    }
    forall i, j | Later(kept, i, j) ensures Held(kept[i], kept[j]) {
      assert Later(marks, i, j);
    }
  }

  /** Regions live in both states, by position in allocation order, have not moved. */
  ghost predicate SamePlaces(s: State, t: State) {
    forall k :: 0 <= k < |t.live| ==> k < |s.live| && t.live[k].(slot := None) == s.live[k].(slot := None)
  }

  lemma RewindEffect(m: State, s: State, bad: set<Elem>)
    requires Inv(s) && Held(m, s)
    ensures InRange(s, Cp(m))
    ensures var t := Rewind(s, Cp(m), bad);
            && Inv(t) && Since(m, t) && t.slots == m.slots && t.serial == s.serial && SamePlaces(s, t)
            && t.ran == s.ran + Drain(s.slots, |m.slots|, |s.slots|, bad)
  {
    WellformedMeans(s);
    RewindMeaning(m, s, bad);
    var t := Rewind(s, Cp(m), bad);
    WellformedMeans(t);
    if NoPanic(s, |m.slots|, bad) {
      RestoredPlacesSame(m, s, t);
    } else {
      ForgottenPlacesSame(s, t, |m.live|, m.slots);
    }
  }

  lemma ForgottenPlacesSame(s: State, t: State, n: nat, slots: seq<DropSlot>)
    requires Forgotten(s, t, n, slots)
    ensures SamePlaces(s, t) && t.serial == s.serial
  {}

  lemma RestoredPlacesSame(m: State, s: State, t: State)
    requires m.live <= s.live && Restored(m, s, t)
    ensures SamePlaces(s, t)
  {}

  lemma RewindKeepsArena(s: State, marks: seq<State>, k: nat, bad: set<Elem>)
    requires Inv(s) && MarksOk(s, marks) && k < |marks|
    ensures InRange(s, Cp(marks[k]))
    ensures var t := Rewind(s, Cp(marks[k]), bad);
            && Inv(t) && MarksOk(t, marks[..k + 1]) && t.serial == s.serial
            && t.slots == s.slots[..|marks[k].slots|]
            && t.ran == s.ran + Drain(s.slots, |marks[k].slots|, |s.slots|, bad)
  {
    assert Held(marks[k], s);
    RewindEffect(marks[k], s, bad);
    MarksRewind(s, Rewind(s, Cp(marks[k]), bad), marks, k);
  }

  lemma RewindKeeps(w: World, k: nat, bad: set<Elem>)
    requires Sound(w) && k < |w.marks|
    ensures InRange(w.s, Cp(w.marks[k]))
    ensures Sound(World(Rewind(w.s, Cp(w.marks[k]), bad), w.mem, w.marks[..k + 1], w.granted))
  {
    SoundMeans(w);
    RewindKeepsArena(w.s, w.marks, k, bad);
    var t := Rewind(w.s, Cp(w.marks[k]), bad);
    UnregisterKeepsLog(w.s, t, w.granted, |w.marks[k].slots|, bad);
    SoundMeans(World(t, w.mem, w.marks[..k + 1], w.granted));
  }

  lemma ResetKeeps(w: World, bad: set<Elem>)
    requires Sound(w) && Shape(w.s)
    ensures Sound(World(Reset(w.s, bad), w.mem, [], w.granted))
  {
    SoundMeans(w);
    ResetKeepsInv(w.s, bad);
    UnregisterKeepsLog(w.s, Reset(w.s, bad), w.granted, 0, bad);
    SoundMeans(World(Reset(w.s, bad), w.mem, [], w.granted));
  }

  lemma MarksRenewed(s: State, t: State, marks: seq<State>, r: Region)
    requires Inv(s) && MarksOk(s, marks) && Renewed(s, t, r)
    requires marks != [] ==> |marks[|marks| - 1].live| < |s.live|
    ensures MarksOk(t, marks)
  {
    forall i | 0 <= i < |marks| ensures Held(marks[i], t) {
      assert Held(marks[i], s);
      LastMarkLongest(s, marks, i);
      SinceRenewed(marks[i], s, t, r);
    }
  }

  lemma LastMarkLongest(s: State, marks: seq<State>, i: nat)
    requires MarksOk(s, marks) && i < |marks|
    ensures |marks[i].live| <= |marks[|marks| - 1].live|
  {
    if i < |marks| - 1 {
      assert Later(marks, i, |marks| - 1);
      assert Held(marks[i], marks[|marks| - 1]);
    }
  }

  lemma GrowKeeps(w: World, size: nat)
    requires Sound(w) && Shape(w.s) && Enabled(w, Grow(size))
    ensures Sound(w.(s := GrowNewest(w.s, size)))
  {
    SoundMeans(w);
    GrowIsRenewed(w.s, size);
    GrowKeepsInv(w.s, size);
    RenewedSound(w, GrowNewest(w.s, size), w.s.live[|w.s.live| - 1].(size := size));
  }

  lemma RenewedSound(w: World, t: State, r: Region)
    requires Inv(w.s) && MarksOk(w.s, w.marks) && LogOk(w.s, w.granted)
    requires Renewed(w.s, t, r) && Inv(t) && t.slots == w.s.slots && t.serial == w.s.serial
    requires w.marks != [] ==> |w.marks[|w.marks| - 1].live| < |w.s.live|
    ensures Sound(w.(s := t))
  {
    MarksRenewed(w.s, t, w.marks, r);
    SoundMeans(w.(s := t));
  }

  lemma StepKeeps(w: World, op: Op)
    requires Sound(w) && Shape(w.s) && Enabled(w, op)
    ensures Sound(Step(w, op))
  {
    match op
    case Serving(r, os, payload) => ServingKeeps(w, r, os, payload);
    case Mark => MarkKeeps(w);
    case RewindTo(k, bad) => RewindKeeps(w, k, bad);
    case ResetAll(bad) => ResetKeeps(w, bad);
    case Grow(size) => GrowKeeps(w, size);
    case Write(k, at, bytes) => WriteKeeps(w, Step(w, op).mem);
  }

  lemma WriteKeeps(w: World, mem: Memory)
    requires Sound(w)
    ensures Sound(w.(mem := mem))
  {
    SoundMeans(w);
    SoundMeans(w.(mem := mem));
  }

  // ----- whole runs ------------------------------------------------------------------------------

  ghost predicate EnabledAll(w: World, ops: seq<Op>)
    decreases |ops|
  {
    |ops| == 0 || (Shape(w.s) && Enabled(w, ops[0]) && EnabledAll(Step(w, ops[0]), ops[1..]))
  }

  function Execute(w: World, ops: seq<Op>): World
    decreases |ops|
  {
    if |ops| == 0 || !Shape(w.s) then w else Execute(Step(w, ops[0]), ops[1..])
  }

  function Start(initial: nat, base: nat, mem: Memory): World {
    World(WithCapacity(initial, base), mem, [], [])
  }

  lemma StartIsSound(initial: nat, base: nat, mem: Memory)
    requires FreshBlock([], base, Max(initial, MIN_BLOCK_SIZE), MIN_BLOCK_ALIGN)
    ensures Sound(Start(initial, base, mem))
  {
    WithCapacityInv(initial, base);
    SoundMeans(Start(initial, base, mem));
  }

  /** Every world reached by any run is sound. */
  lemma {:induction false} ExecuteKeeps(w: World, ops: seq<Op>)
    requires Sound(w) && EnabledAll(w, ops)
    ensures Sound(Execute(w, ops))
    decreases |ops|
  {
    if |ops| > 0 {
      StepKeeps(w, ops[0]);
      ExecuteKeeps(Step(w, ops[0]), ops[1..]);
    }
  }

  /** Address of a position. */
  function Address(s: State, blk: nat, off: nat): nat
    requires blk < |s.blocks|
  {
    s.blocks[blk].base + off
  }

  /** Region `i` lies inside its block and is aligned. */
  predicate SafelyPlaced(s: State, i: nat)
    requires i < |s.live|
  {
    var r := s.live[i];
    && r.blk < |s.blocks| && r.off + r.size <= s.blocks[r.blk].capacity
    && r.align > 0 && Aligned(Address(s, r.blk, r.off), r.align)
  }

  /** Regions `i` and `k` are in order and share no address. */
  predicate ApartInOrder(s: State, i: nat, k: nat)
    requires i < |s.live| && k < |s.live|
  {
    var p, r := s.live[i], s.live[k];
    && Before(p, r) && p.blk < |s.blocks| && r.blk < |s.blocks|
    && Disjoint(Address(s, p.blk, p.off), p.size, Address(s, r.blk, r.off), r.size)
  }

  /**
   Memory safety in every reachable world: every live region lies inside its block and is aligned,
   and allocation order is the order by block and offset, without any shared address.
   */
  lemma LiveRegionsAreSafe(w: World)
    requires Sound(w)
    ensures forall i :: 0 <= i < |w.s.live| ==> SafelyPlaced(w.s, i)
    ensures forall i, k :: 0 <= i < k < |w.s.live| ==> ApartInOrder(w.s, i, k)
  {
    SoundMeans(w);
    var s := w.s;
    forall i | 0 <= i < |s.live| ensures SafelyPlaced(s, i) {
      assert InBlock(s, s.live[i]) && BlkOk(s.blocks[s.live[i].blk]);
    }
    forall i, k | 0 <= i < k < |s.live| ensures ApartInOrder(s, i, k) {
      assert SafelyPlaced(s, i) && SafelyPlaced(s, k) && Ordered(s.live, i, k);
      if s.live[i].blk < s.live[k].blk {
        assert Apart(s.blocks, s.live[i].blk, s.live[k].blk);
      }
    }
  }

  // ----- bytes -----------------------------------------------------------------------------------

  ghost predicate SameBytes(a: Memory, b: Memory, r: Region) {
    forall o :: r.off <= o < r.off + r.size ==> a(r.blk, o) == b(r.blk, o)
  }

  predicate WritesTo(op: Op, k: nat) {
    op.Write? && op.k == k
  }

  /** Storing inside one live region leaves the bytes of every other alone. */
  lemma StoreElsewhere(s: State, mem: Memory, i: nat, k: nat, off: nat, bytes: seq<byte>)
    requires LiveOk(s) && i < |s.live| && k < |s.live| && i != k
    requires s.live[i].off <= off && off + |bytes| <= s.live[i].off + s.live[i].size
    ensures SameBytes(mem, Store(mem, s.live[i].blk, off, bytes), s.live[k])
  {
    if i < k {
      assert Ordered(s.live, i, k);
    } else {
      assert Ordered(s.live, k, i);
    }
  }

  /** Region `k` has not moved, has not shrunk, and its bytes are the same. */
  ghost predicate Kept(s: State, mem: Memory, t: State, mem': Memory, k: nat) {
    k < |s.live| && k < |t.live| ==>
      && t.live[k].blk == s.live[k].blk && t.live[k].off == s.live[k].off && t.live[k].size >= s.live[k].size
      && SameBytes(mem, mem', s.live[k])
  }

  lemma SamePlacesKept(s: State, t: State, mem: Memory, k: nat)
    requires SamePlaces(s, t)
    ensures Kept(s, mem, t, mem, k)
  {}

  lemma ServingKeepsBytes(w: World, r: Request, os: Option<nat>, payload: seq<byte>, k: nat)
    requires Sound(w) && Shape(w.s) && Enabled(w, Serving(r, os, payload)) && k < |w.s.live|
    ensures var (t, out) := Serve(w.s, r, os);
            Kept(w.s, w.mem, t, if out.Placed? then Store(w.mem, out.blk, out.off, payload) else w.mem, k)
  {
    SoundMeans(w);
    ServeMeaning(w.s, r, os);
    var (t, out) := Serve(w.s, r, os);
    assert t.live[k] == w.s.live[k];
    if out.Placed? {
      StoreElsewhere(t, w.mem, |w.s.live|, k, out.off, payload);
    }
  }

  lemma RewindKeepsBytes(w: World, j: nat, bad: set<Elem>, k: nat)
    requires Sound(w) && j < |w.marks|
    ensures InRange(w.s, Cp(w.marks[j])) && Kept(w.s, w.mem, Rewind(w.s, Cp(w.marks[j]), bad), w.mem, k)
  {
    SoundMeans(w);
    assert Held(w.marks[j], w.s);
    RewindEffect(w.marks[j], w.s, bad);
    SamePlacesKept(w.s, Rewind(w.s, Cp(w.marks[j]), bad), w.mem, k);
  }

  lemma ResetKeepsBytes(w: World, bad: set<Elem>, k: nat)
    requires Shape(w.s)
    ensures Kept(w.s, w.mem, Reset(w.s, bad), w.mem, k)
  {}

  lemma WriteKeepsBytes(w: World, i: nat, at: nat, bytes: seq<byte>, k: nat)
    requires Sound(w) && i < |w.s.live| && at + |bytes| <= w.s.live[i].size && i != k
    ensures Kept(w.s, w.mem, w.s, Store(w.mem, w.s.live[i].blk, w.s.live[i].off + at, bytes), k)
  {
    SoundMeans(w);
    if k < |w.s.live| {
      StoreElsewhere(w.s, w.mem, i, k, w.s.live[i].off + at, bytes);
    }
  }

  /** One step that is not a write through region `k`'s own handle moves nothing and changes no byte of it. */
  lemma StepKeepsBytes(w: World, op: Op, k: nat)
    requires Sound(w) && Shape(w.s) && Enabled(w, op) && !WritesTo(op, k) && k < |w.s.live|
    ensures Kept(w.s, w.mem, Step(w, op).s, Step(w, op).mem, k)
  {
    match op
    case Serving(r, os, payload) => ServingKeepsBytes(w, r, os, payload, k);
    case Mark =>
    case RewindTo(j, bad) => RewindKeepsBytes(w, j, bad, k);
    case ResetAll(bad) => ResetKeepsBytes(w, bad, k);
    case Grow(size) =>
    case Write(i, at, bytes) => WriteKeepsBytes(w, i, at, bytes, k);
  }

  /** Region `k` stays live, and is never written through its own handle, all along the run. */
  ghost predicate Undisturbed(w: World, ops: seq<Op>, k: nat)
    decreases |ops|
  {
    && k < |w.s.live|
    && (|ops| == 0 || (Shape(w.s) && !WritesTo(ops[0], k) && Undisturbed(Step(w, ops[0]), ops[1..], k)))
  }

  /** Over any run, a region that stays live keeps its place and its bytes. */
  lemma {:induction false} RunKeepsBytes(w: World, ops: seq<Op>, k: nat)
    requires Sound(w) && EnabledAll(w, ops) && Undisturbed(w, ops, k)
    ensures k < |Execute(w, ops).s.live|
    ensures Kept(w.s, w.mem, Execute(w, ops).s, Execute(w, ops).mem, k)
    decreases |ops|
  {
    if |ops| > 0 {
      var v, z := Step(w, ops[0]), Execute(w, ops);
      StepKeepsBytes(w, ops[0], k);
      StepKeeps(w, ops[0]);
      RunKeepsBytes(v, ops[1..], k);
      KeptTransitive(w.s, w.mem, v.s, v.mem, z.s, z.mem, k);
    }
  }

  /** Region `k` stays live all along the run. */
  ghost predicate StaysLive(w: World, ops: seq<Op>, k: nat)
    decreases |ops|
  {
    k < |w.s.live| && (|ops| == 0 || (Shape(w.s) && StaysLive(Step(w, ops[0]), ops[1..], k)))
  }

  /** Byte `o` of region `k`, first `x`, after a step: only a write through its handle that covers it counts. */
  function Overwritten(x: byte, op: Op, k: nat, o: nat): byte {
    if op.Write? && op.k == k && op.at <= o < op.at + |op.bytes| then op.bytes[o - op.at] else x
  }

  /** The last such write of a run wins. */
  function LastWritten(x: byte, ops: seq<Op>, k: nat, o: nat): byte
    decreases |ops|
  {
    if |ops| == 0 then x else LastWritten(Overwritten(x, ops[0], k, o), ops[1..], k, o)
  }

  /** Byte `o` of region `k`. */
  function ByteAt(w: World, k: nat, o: nat): byte
    requires k < |w.s.live|
  {
    w.mem(w.s.live[k].blk, w.s.live[k].off + o)
  }

  lemma {:induction false} StepReadsBack(w: World, op: Op, k: nat, o: nat)
    requires Sound(w) && Shape(w.s) && Enabled(w, op) && k < |w.s.live| && k < |Step(w, op).s.live|
    requires o < w.s.live[k].size
    ensures o < Step(w, op).s.live[k].size && ByteAt(Step(w, op), k, o) == Overwritten(ByteAt(w, k, o), op, k, o)
  {
    if !WritesTo(op, k) {
      StepKeepsBytes(w, op, k);
    }
  }

  /**
   Over any run, however blocks are switched, rewound or reset in between, each byte of a region that
   stays live reads as the last write through its own handle left it.
   */
  lemma {:induction false} RunReadsBack(w: World, ops: seq<Op>, k: nat, o: nat)
    requires Sound(w) && EnabledAll(w, ops) && StaysLive(w, ops, k) && o < w.s.live[k].size
    ensures k < |Execute(w, ops).s.live|
    ensures ByteAt(Execute(w, ops), k, o) == LastWritten(ByteAt(w, k, o), ops, k, o)
    decreases |ops|
  {
    if |ops| > 0 {
      StepReadsBack(w, ops[0], k, o);
      StepKeeps(w, ops[0]);
      RunReadsBack(Step(w, ops[0]), ops[1..], k, o);
    }
  }

  /** A granted region starts with the payload it was filled with. */
  lemma {:induction false} GrantReadsBack(w: World, r: Request, os: Option<nat>, payload: seq<byte>, o: nat)
    requires Sound(w) && Shape(w.s) && Enabled(w, Serving(r, os, payload)) && o < |payload|
    ensures var v := Step(w, Serving(r, os, payload));
            if Serve(w.s, r, os).1.Placed? then |v.s.live| == |w.s.live| + 1 && ByteAt(v, |w.s.live|, o) == payload[o]
            else v.s.live == w.s.live && v.mem == w.mem
  {
    SoundState(w);
    var (t, out) := Serve(w.s, r, os);
    ServedPlace(w.s, r, os, t, out);
    if out.Placed? {
      StoredAt(w.mem, out.blk, out.off, payload, o);
    }
  }

  lemma {:induction false} SoundState(w: World)
    requires Sound(w)
    ensures Wellformed(w.s)
  {
    SoundMeans(w);
    WellformedMeans(w.s);
  }

  lemma {:induction false} StoredAt(mem: Memory, blk: nat, off: nat, bytes: seq<byte>, o: nat)
    requires o < |bytes|
    ensures Store(mem, blk, off, bytes)(blk, off + o) == bytes[o]
  {}

  lemma {:induction false} ServedPlace(s: State, r: Request, os: Option<nat>, t: State, out: Outcome)
    requires Wellformed(s) && Shape(s) && r.size > 0 && ValidAlign(r.align) && OsOk(s, r.size, r.align, os)
    requires (t, out) == Serve(s, r, os)
    ensures if out.Placed? then |t.live| == |s.live| + 1 && t.live[|s.live|].blk == out.blk && t.live[|s.live|].off == out.off
            else t.live == s.live
  {
    WellformedMeans(s);
    ServeMeaning(s, r, os);
  }

  lemma KeptTransitive(a: State, m: Memory, b: State, m': Memory, c: State, m'': Memory, k: nat)
    requires k < |a.live| && k < |b.live| && Kept(a, m, b, m', k) && Kept(b, m', c, m'', k)
    ensures Kept(a, m, c, m'', k)
  {}

  // ----- destructors of a rewind -----------------------------------------------------------------

  lemma {:induction false} SlotsOfConcat(a: seq<Region>, b: seq<Region>)
    ensures SlotsOf(a + b) == SlotsOf(a) + SlotsOf(b)
    decreases |b|
  {
    if b == [] {
      assert a + b == a;
    } else {
      assert (a + b)[..|a + b| - 1] == a + b[..|b| - 1];
      SlotsOfConcat(a, b[..|b| - 1]);
    }
  }

  /** A rewind runs exactly the destructor slots of the regions that leave the live set, newest first. */
  lemma RewindRunsDeparted(m: State, s: State, bad: set<Elem>)
    requires Wellformed(m) && Wellformed(s) && Since(m, s)
    ensures InRange(s, Cp(m))
    ensures var departed := SlotsOf(s.live[|m.live|..]);
            Rewind(s, Cp(m), bad).ran == s.ran + Drain(departed, 0, |departed|, bad)
  {
    WellformedMeans(m);
    WellformedMeans(s);
    RewindMeaning(m, s, bad);
    DepartedSlots(m, s, bad);
  }

  lemma DepartedSlots(m: State, s: State, bad: set<Elem>)
    requires DropsOk(m) && DropsOk(s) && m.live <= s.live
    ensures var departed := SlotsOf(s.live[|m.live|..]);
            && |m.slots| <= |s.slots|
            && Drain(s.slots, |m.slots|, |s.slots|, bad) == Drain(departed, 0, |departed|, bad)
  {
    var departed := SlotsOf(s.live[|m.live|..]);
    assert s.live == m.live + s.live[|m.live|..];
    SlotsOfConcat(m.live, s.live[|m.live|..]);
    DrainShift(m.slots, departed, |departed|, bad);
  }

  lemma {:induction false} DrainShift(a: seq<DropSlot>, b: seq<DropSlot>, n: nat, bad: set<Elem>)
    requires n <= |b|
    ensures Drain(a + b, |a|, |a| + n, bad) == Drain(b, 0, n, bad)
  {
    if n > 0 {
      DrainShift(a, b, n - 1, bad);
    }
  }
}

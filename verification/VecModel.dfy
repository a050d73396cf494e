/**
 The growable vector of src/vec/arena_vec.rs as a machine on values: its elements, its capacity
 and the arena it borrows. The imperative `ArenaVec` class is proved against these steps.

 While a vector is alive it borrows the arena mutably, so the arena's only steps are its own.
 */
module VecModel {
  import opened Bits
  import opened Wrappers
  import opened ArenaModel
  import opened ArenaInvariants
  import opened Rewinding

  type Item = seq<byte>  // the bytes of one element

  datatype Layout = Layout(size: nat, align: nat, needsDrop: bool)

  /** Element types: the size is positive and a multiple of the alignment. */
  predicate ValidLayout(l: Layout) {
    l.size > 0 && ValidAlign(l.align) && Aligned(l.size, l.align)
  }

  type ElemLayout = l: Layout | ValidLayout(l) witness Layout(1, 1, false)

  predicate Sized(items: seq<Item>, size: nat) {
    forall i :: 0 <= i < |items| ==> |items[i]| == size
  }

  /** Bytes taken by `n` elements. */
  function Span(n: nat, size: nat): (bytes: nat)
    ensures n > 0 && size > 0 ==> bytes > 0
  {
    if n == 0 then 0 else Span(n - 1, size) + size
  }

  lemma {:induction false} SpanIsProduct(n: nat, size: nat)
    ensures Span(n, size) == n * size
  {
    if n > 0 {
      SpanIsProduct(n - 1, size);
    }
  }

  lemma {:induction false} SpanSum(m: nat, n: nat, size: nat)
    ensures Span(m + n, size) == Span(m, size) + Span(n, size)
  {
    if n > 0 {
      SpanSum(m, n - 1, size);
    }
  }

  lemma {:induction false} SpanMonotone(m: nat, n: nat, size: nat)
    requires m <= n
    ensures Span(m, size) <= Span(n, size)
  {
    if m < n {
      SpanMonotone(m, n - 1, size);
    }
  }

  lemma {:induction false} SpanCovers(n: nat, size: nat)
    requires size > 0
    ensures n <= Span(n, size)
  {
    if n > 0 {
      SpanCovers(n - 1, size);
    }
  }

  // ----- the machine -----------------------------------------------------------------------------

  /** `dropped` are the elements whose destructor has run, `copied` counts those moved by growth. */
  datatype Vec = Vec(s: State, items: seq<Item>, cap: nat, dropped: seq<Item>, copied: nat)

  datatype ReserveError = CapacityOverflow | AllocError

  datatype Answer = Done | Popped(item: Option<Item>) | Denied(error: ReserveError) | Panic

  datatype VecOp =
    | Push(x: Item, fallible: bool)
    | Pop
    | Extend(xs: seq<Item>)
    | Reserve(additional: nat, exact: bool, fallible: bool)
    | Truncate(n: nat)
    | Clear
    | Resize(n: nat, x: Item)
    | Put(i: nat, x: Item)

  datatype Need = Enough | More(cap: nat) | TooMany

  /** The capacity an operation asks for before it touches any element. */
  function NeedFor(v: Vec, op: VecOp): Need {
    NeedIn(|v.items|, v.cap, op)
  }

  function NeedIn(len: nat, cap: nat, op: VecOp): Need {
    match op
    case Push(_, _) =>
      if len != cap then Enough
      else if cap == 0 then More(4)
      else if cap * 2 <= USIZE_MAX then More(cap * 2)
      else TooMany
    case Extend(xs) =>
      if xs == [] then Enough
      else if len + |xs| > USIZE_MAX then TooMany
      else if len + |xs| > cap then More(len + |xs|)
      else Enough
    case Reserve(n, exact, _) =>
      if exact && len + n > USIZE_MAX then TooMany
      else if Min(len + n, USIZE_MAX) > cap then More(Min(len + n, USIZE_MAX))
      else Enough
    case Resize(n, _) => if n > len && n > cap then More(n) else Enough
    case _ => Enough
  }

  predicate IsFallible(op: VecOp) {
    (op.Push? || op.Reserve?) && op.fallible
  }

  function Declined(fallible: bool, e: ReserveError): Answer {
    if fallible then Denied(e) else Panic
  }

  /** The current block holds `n` elements from where the vector's region starts. */
  predicate HasRoom(v: Vec, l: Layout, n: nat) {
    && v.cap > 0 && v.s.live != [] && Shape(v.s)
    && v.s.live[|v.s.live| - 1].off + Span(n, l.size) <= v.s.blocks[v.s.current].capacity
  }

  /** How the outcome of an allocation becomes the outcome of growth. */
  function Adopted(v: Vec, n: nat, t: State, out: Outcome): (Vec, Answer) {
    match out
    case Placed(_, _) => (v.(s := t, cap := n, copied := v.copied + |v.items|), Done)
    case Failed => (v.(s := t), Denied(AllocError))
    case Panicked => (v.(s := t), Panic)
  }

  /** `grow_to` and `try_grow_to`: extend in place if there is room, else relocate. */
  function GrowTo(v: Vec, l: Layout, n: nat, fallible: bool, os: Option<nat>): (Vec, Answer)
    requires Shape(v.s) && l.align > 0
  {
    if HasRoom(v, l, n) then (v.(s := GrowNewest(v.s, Span(n, l.size)), cap := n), Done)
    else if Span(n, l.size) > USIZE_MAX then (v, Declined(fallible, CapacityOverflow))
    else
      var (t, out) := Alloc(v.s, Span(n, l.size), l.align, fallible, os);
      Adopted(v, n, t, out)
  }

  function Copies(x: Item, n: nat): (xs: seq<Item>)
    ensures |xs| == n && Sized(xs, |x|)
    ensures forall i :: 0 <= i < n ==> xs[i] == x
  {
    if n == 0 then [] else Copies(x, n - 1) + [x]
  }

  /** Keeps the first `n` elements and runs the destructors of the rest, front to back. */
  function Shorten(v: Vec, l: Layout, n: nat): Vec {
    if n >= |v.items| then v
    else v.(items := v.items[..n], dropped := v.dropped + if l.needsDrop then v.items[n..] else [])
  }

  /** Indexed assignment: the overwritten element's destructor runs. */
  function Assign(v: Vec, l: Layout, i: nat, x: Item): Vec
    requires i < |v.items|
  {
    v.(items := v.items[i := x], dropped := v.dropped + if l.needsDrop then [v.items[i]] else [])
  }

  /** The element work of an operation, once the capacity suffices. */
  function Effect(v: Vec, l: Layout, op: VecOp): (Vec, Answer) {
    match op
    case Push(x, _) => (v.(items := v.items + [x]), Done)
    case Pop =>
      if v.items == [] then (v, Popped(None))
      else (v.(items := v.items[..|v.items| - 1]), Popped(Some(v.items[|v.items| - 1])))
    case Extend(xs) => (v.(items := v.items + xs), Done)
    case Reserve(_, _, _) => (v, Done)
    case Truncate(n) => (Shorten(v, l, n), Done)
    case Clear => (Shorten(v, l, 0), Done)
    case Resize(n, x) =>
      if n > |v.items| then (v.(items := v.items + Copies(x, n - |v.items|)), Done) else (Shorten(v, l, n), Done)
    case Put(i, x) => if i < |v.items| then (Assign(v, l, i, x), Done) else (v, Panic)
  }

  function Step(v: Vec, l: Layout, op: VecOp, os: Option<nat>): (Vec, Answer)
    requires Shape(v.s) && l.align > 0
  {
    match NeedFor(v, op)
    case Enough => Effect(v, l, op)
    case TooMany => (v, Declined(IsFallible(op), CapacityOverflow))
    case More(n) =>
      var (w, a) := GrowTo(v, l, n, IsFallible(op), os);
      if a == Done then Effect(w, l, op) else (w, a)
  }

  // ----- the invariant ---------------------------------------------------------------------------

  /** The vector's region is the newest live one; it has no destructor slot. */
  predicate Owns(v: Vec, l: Layout) {
    v.cap > 0 ==>
      && v.s.live != []
      && var r := v.s.live[|v.s.live| - 1];
         r.size == Span(v.cap, l.size) && r.align == l.align && r.slot.None?
  }

  /** Live regions other than the vector's own. */
  function Others(v: Vec): seq<Region> {
    if v.cap > 0 && v.s.live != [] then v.s.live[..|v.s.live| - 1] else v.s.live
  }

  ghost predicate VecOk(v: Vec, l: Layout) {
    && ValidLayout(l) && Wellformed(v.s) && Owns(v, l)
    && |v.items| <= v.cap <= USIZE_MAX && Sized(v.items, l.size)
  }

  const WORD: nat := USIZE_MAX + 1

  /** The new end the in-place test computes: both the byte count and the sum wrap. */
  function WrappedEnd(end: nat, extra: nat): (e: nat)
    ensures e <= USIZE_MAX
  {
    (end + extra % WORD) % WORD
  }

  /** The in-place test of the source, as a comparison of wrapped words. */
  predicate PassesTest(v: Vec, l: Layout, n: nat) {
    && v.cap > 0 && v.cap < n && v.s.live != [] && Shape(v.s)
    && var b := v.s.blocks[v.s.current];
       WrappedEnd(b.base + v.s.used, Span(n - v.cap, l.size)) <= b.base + b.capacity
  }

  /** The test passes only when there is room. */
  predicate TestIsSound(v: Vec, l: Layout, n: nat) {
    PassesTest(v, l, n) ==> HasRoom(v, l, n)
  }

  /** What the caller and the system allocator guarantee when `n` elements are asked for. */
  predicate MayGrow(v: Vec, l: Layout, n: nat, os: Option<nat>)
    requires l.align > 0
  {
    n <= USIZE_MAX && TestIsSound(v, l, n) && OsOk(v.s, Span(n, l.size), l.align, os)
  }

  predicate Enabled(v: Vec, l: Layout, op: VecOp, os: Option<nat>)
    requires l.align > 0
  {
    && (op.Push? || op.Resize? || op.Put? ==> |op.x| == l.size)
    && (op.Extend? ==> Sized(op.xs, l.size))
    && (NeedFor(v, op).More? ==> MayGrow(v, l, NeedFor(v, op).cap, os))
  }

  // ----- the tail and the cursor -----------------------------------------------------------------

  /** The last byte of region `k` and the last byte in use lie in one block only if it is the current one. */
  lemma TailBlocks(s: State, k: nat)
    requires Inv(s) && k < |s.live| && s.live[k].blk < s.current
    ensures s.blocks[s.live[k].blk].base + s.live[k].off + s.live[k].size != s.blocks[s.current].base + s.used
  {
    var r, last := s.live[k], s.live[|s.live| - 1];
    assert InBlock(s, r) && InBlock(s, last);
    assert BlkOk(s.blocks[r.blk]);
    assert Apart(s.blocks, r.blk, s.current);
  }

  /**
   Comparing the end address of a live region with the cursor, as the growth code does, finds out
   exactly whether that region is the newest live one.
   */
  lemma TailIsNewest(s: State, k: nat)
    requires Inv(s) && k < |s.live|
    ensures s.live[k].blk < |s.blocks|
    ensures s.blocks[s.live[k].blk].base + s.live[k].off + s.live[k].size == s.blocks[s.current].base + s.used
            <==> k == |s.live| - 1
  {
    var last := s.live[|s.live| - 1];
    assert InBlock(s, s.live[k]) && InBlock(s, last);
    if s.live[k].blk < s.current {
      TailBlocks(s, k);
    } else if k < |s.live| - 1 {
      assert Ordered(s.live, k, |s.live| - 1);
    }
  }

  /** Which byte counts pass the wrapped test: those with room, and those that wrap past the cursor. */
  lemma WrappedEndFits(end: nat, limit: nat, extra: nat)
    requires 0 < end <= limit <= USIZE_MAX
    ensures WrappedEnd(end, extra) <= limit <==> (extra % WORD <= limit - end || WORD - end <= extra % WORD)
    ensures extra <= limit - end ==> WrappedEnd(end, extra) == end + extra
  {
    var e := extra % WORD;
    if end + e >= WORD {
      assert (end + e) % WORD == end + e - WORD;
    }
  }

  /**
   The in-place test is right about a capacity `n`, room or none, if and only if the bytes it asks
   for fit behind the cursor, or their count modulo the word neither fits nor reaches past the
   last address.
   */
  lemma TestIsSoundIff(v: Vec, l: Layout, n: nat)
    requires VecOk(v, l) && 0 < v.cap < n && Shape(v.s)
    ensures var b := v.s.blocks[v.s.current];
            var extra, end, room := Span(n - v.cap, l.size), b.base + v.s.used, b.capacity - v.s.used;
            && (HasRoom(v, l, n) <==> extra <= room)
            && (HasRoom(v, l, n) ==> PassesTest(v, l, n) && WrappedEnd(end, extra) == end + extra)
            && (TestIsSound(v, l, n) <==> extra <= room || room < extra % WORD < WORD - end)
  {
    WellformedMeans(v.s);
    var b := v.s.blocks[v.s.current];
    assert BlkOk(b);
    SpanSum(v.cap, n - v.cap, l.size);
    WrappedEndFits(b.base + v.s.used, b.base + b.capacity, Span(n - v.cap, l.size));
  }

  // ----- growth ----------------------------------------------------------------------------------

  /** The newest region was extended, or a new one was appended in a later block. */
  ghost predicate Grew(v: Vec, w: Vec, l: Layout, n: nat) {
    && w.items == v.items && w.dropped == v.dropped && w.cap == n
    && w.s.live != []
    && if HasRoom(v, l, n) then
         && w.copied == v.copied && |w.s.live| == |v.s.live| && Others(w) == Others(v)
         && w.s.live[|w.s.live| - 1].blk == v.s.live[|v.s.live| - 1].blk
         && w.s.live[|w.s.live| - 1].off == v.s.live[|v.s.live| - 1].off
       else
         && w.copied == v.copied + |v.items| && Others(w) == v.s.live
         && (v.cap > 0 && v.s.live != [] ==> w.s.live[|w.s.live| - 1].blk > v.s.live[|v.s.live| - 1].blk)
  }

  lemma InPlaceGrew(v: Vec, l: Layout, n: nat)
    requires VecOk(v, l) && v.cap < n <= USIZE_MAX && HasRoom(v, l, n)
    ensures var w := v.(s := GrowNewest(v.s, Span(n, l.size)), cap := n); VecOk(w, l) && Grew(v, w, l, n)
  {
    SpanMonotone(v.cap, n, l.size);
    GrowKeepsWellformed(v.s, Span(n, l.size));
  }

  /** A relocated vector leaves the current block: had it room for the copy, it would have grown in place. */
  lemma RelocatedLater(v: Vec, l: Layout, n: nat, t: State, out: Outcome)
    requires VecOk(v, l) && v.cap < n && !HasRoom(v, l, n) && v.cap > 0 && Inv(v.s)
    requires out.Placed? && Allocated(v.s, t, out, Span(n, l.size), l.align)
    ensures out.blk > v.s.live[|v.s.live| - 1].blk
  {}

  lemma RelocatedLands(v: Vec, l: Layout, n: nat, t: State, out: Outcome)
    requires VecOk(v, l) && Inv(v.s) && v.cap < n <= USIZE_MAX && !HasRoom(v, l, n)
    requires Wellformed(t) && Allocated(v.s, t, out, Span(n, l.size), l.align) && out.Placed?
    ensures var w := v.(s := t, cap := n, copied := v.copied + |v.items|); VecOk(w, l) && Grew(v, w, l, n)
    ensures |t.live| == |v.s.live| + 1 && t.live[|v.s.live|].blk == out.blk && t.live[|v.s.live|].off == out.off
  {
    AllocatedShape(v.s, t, out, Span(n, l.size), l.align);
    if v.cap > 0 {
      RelocatedLater(v, l, n, t, out);
    }
    LandsIn(v, l, n, t, t.live[|v.s.live|]);
  }

  /** The newest region `r` of `t` becomes the vector's. */
  lemma LandsIn(v: Vec, l: Layout, n: nat, t: State, r: Region)
    requires VecOk(v, l) && v.cap < n <= USIZE_MAX && !HasRoom(v, l, n)
    requires Wellformed(t) && t.live == v.s.live + [r]
    requires r.size == Span(n, l.size) && r.align == l.align && r.slot.None?
    requires v.cap > 0 && v.s.live != [] ==> v.s.live[|v.s.live| - 1].blk < r.blk
    ensures var w := v.(s := t, cap := n, copied := v.copied + |v.items|); VecOk(w, l) && Grew(v, w, l, n)
  {}

  lemma RequestMeaning(v: Vec, l: Layout, n: nat, fallible: bool, os: Option<nat>, t: State, out: Outcome)
    requires VecOk(v, l) && Shape(v.s) && v.cap < n && MayGrow(v, l, n, os)
    requires (t, out) == Alloc(v.s, Span(n, l.size), l.align, fallible, os)
    ensures Inv(v.s) && Wellformed(t) && Allocated(v.s, t, out, Span(n, l.size), l.align)
    ensures (out.Failed? ==> fallible) && (!out.Placed? ==> t.live == v.s.live)
  {
    AllocKeepsWellformed(v.s, Span(n, l.size), l.align, fallible, os);
    WellformedMeans(v.s);
    AllocMeaning(v.s, Span(n, l.size), l.align, fallible, os);
    AllocRefusal(v.s, Span(n, l.size), l.align, fallible, os);
  }

  lemma AllocRefusal(s: State, size: nat, align: nat, fallible: bool, os: Option<nat>)
    requires Shape(s) && align > 0
    ensures Alloc(s, size, align, fallible, os).1.Failed? ==> fallible
  {}

  /** A relocation's request, seen from the allocator's answer. */
  lemma RelocationMeaning(v: Vec, l: Layout, n: nat, fallible: bool, os: Option<nat>, t: State, out: Outcome)
    requires VecOk(v, l) && Shape(v.s) && v.cap < n && !HasRoom(v, l, n) && MayGrow(v, l, n, os)
    requires (t, out) == Alloc(v.s, Span(n, l.size), l.align, fallible, os)
    ensures AfterGrow(v, Adopted(v, n, t, out).0, Adopted(v, n, t, out).1, l, n, fallible)
    ensures out.Placed? ==> |t.live| == |v.s.live| + 1
    ensures out.Placed? ==> t.live[|v.s.live|].blk == out.blk && t.live[|v.s.live|].off == out.off
  {
    RequestMeaning(v, l, n, fallible, os, t, out);
    if out.Placed? {
      RelocatedLands(v, l, n, t, out);
    } else {
      RefusalLands(v, l, n, fallible, t, out);
    }
  }

  lemma RefusalLands(v: Vec, l: Layout, n: nat, fallible: bool, t: State, out: Outcome)
    requires VecOk(v, l) && Wellformed(t) && t.live == v.s.live && !out.Placed? && (out.Failed? ==> fallible)
    ensures AfterGrow(v, Adopted(v, n, t, out).0, Adopted(v, n, t, out).1, l, n, fallible)
  {}

  /** What a relocation's allocation gives the vector to work with. */
  ghost predicate Offered(v: Vec, l: Layout, n: nat, t: State, out: Outcome) {
    && VecOk(Adopted(v, n, t, out).0, l)
    && if out.Placed? then
         && t.live != [] && t.live[..|t.live| - 1] == v.s.live
         && t.live[|t.live| - 1].blk == out.blk && t.live[|t.live| - 1].off == out.off
         && (v.cap > 0 && v.s.live != [] ==> v.s.live[|v.s.live| - 1].blk < out.blk)
       else t.live == v.s.live
  }

  lemma RelocationOffers(v: Vec, l: Layout, n: nat, fallible: bool, os: Option<nat>, t: State, out: Outcome)
    requires VecOk(v, l) && Shape(v.s) && v.cap < n && !HasRoom(v, l, n) && MayGrow(v, l, n, os)
    requires (t, out) == Alloc(v.s, Span(n, l.size), l.align, fallible, os)
    ensures Offered(v, l, n, t, out)
  {
    RelocationMeaning(v, l, n, fallible, os, t, out);
  }

  /** Only the arena's new state matters to what is adopted. */
  lemma AdoptedFrom(v: Vec, w: Vec, n: nat, t: State, out: Outcome)
    requires w == v.(s := t)
    ensures Adopted(w, n, t, out) == Adopted(v, n, t, out)
  {}

  lemma GrowToUnfolds(v: Vec, l: Layout, n: nat, fallible: bool, os: Option<nat>, t: State, out: Outcome)
    requires Shape(v.s) && l.align > 0 && !HasRoom(v, l, n) && Span(n, l.size) <= USIZE_MAX
    requires (t, out) == Alloc(v.s, Span(n, l.size), l.align, fallible, os)
    ensures GrowTo(v, l, n, fallible, os) == Adopted(v, n, t, out)
  {}

  /** What a growth request leaves behind, granted or not. */
  ghost predicate AfterGrow(v: Vec, w: Vec, a: Answer, l: Layout, n: nat, fallible: bool) {
    && VecOk(w, l)
    && if a == Done then Grew(v, w, l, n)
       else w == v.(s := w.s) && w.s.live == v.s.live && (a == Panic || (fallible && a.Denied?))
  }

  /** Every growth request, granted or not, keeps the vector sound and all other regions in place. */
  lemma GrowToKeeps(v: Vec, l: Layout, n: nat, fallible: bool, os: Option<nat>)
    requires VecOk(v, l) && v.cap < n && MayGrow(v, l, n, os)
    ensures Shape(v.s)
    ensures AfterGrow(v, GrowTo(v, l, n, fallible, os).0, GrowTo(v, l, n, fallible, os).1, l, n, fallible)
  {
    SoundShape(v, l);
    if HasRoom(v, l, n) {
      InPlaceGrew(v, l, n);
    } else if Span(n, l.size) <= USIZE_MAX {
      var (t, out) := Alloc(v.s, Span(n, l.size), l.align, fallible, os);
      RelocationMeaning(v, l, n, fallible, os, t, out);
      GrowToUnfolds(v, l, n, fallible, os, t, out);
    }
  }

  lemma SoundShape(v: Vec, l: Layout)
    requires VecOk(v, l)
    ensures Shape(v.s)
  {
    WellformedMeans(v.s);
  }

  lemma InPlaceKeepsCheckpoint(m: State, v: Vec, l: Layout, n: nat)
    requires VecOk(v, l) && v.cap < n && HasRoom(v, l, n) && Since(m, v.s) && |m.live| <= |Others(v)|
    ensures Since(m, GrowNewest(v.s, Span(n, l.size)))
  {
    WellformedMeans(v.s);
    SpanMonotone(v.cap, n, l.size);
    GrowIsRenewed(v.s, Span(n, l.size));
    SinceRenewed(m, v.s, GrowNewest(v.s, Span(n, l.size)), v.s.live[|v.s.live| - 1].(size := Span(n, l.size)));
  }

  /** A checkpoint taken before the vector's region was allocated outlives any growth. */
  lemma GrowToKeepsCheckpoint(m: State, v: Vec, l: Layout, n: nat, fallible: bool, os: Option<nat>)
    requires VecOk(v, l) && v.cap < n && MayGrow(v, l, n, os) && Shape(v.s)
    requires Since(m, v.s) && |m.live| <= |Others(v)|
    ensures Since(m, GrowTo(v, l, n, fallible, os).0.s)
  {
    if HasRoom(v, l, n) {
      InPlaceKeepsCheckpoint(m, v, l, n);
    } else if Span(n, l.size) <= USIZE_MAX {
      var (t, out) := Alloc(v.s, Span(n, l.size), l.align, fallible, os);
      RequestMeaning(v, l, n, fallible, os, t, out);
      SinceAllocated(v.s, t, out, Span(n, l.size), l.align);
      SinceTransitive(m, v.s, t);
      GrowToUnfolds(v, l, n, fallible, os, t, out);
    }
  }

  /** A vector never touches the destructor log, whether it is dropped or finished. */
  lemma GrowToKeepsLog(v: Vec, l: Layout, n: nat, fallible: bool, os: Option<nat>)
    requires VecOk(v, l) && v.cap < n && MayGrow(v, l, n, os) && Shape(v.s)
    ensures SameLog(v.s, GrowTo(v, l, n, fallible, os).0.s)
  {
    if !HasRoom(v, l, n) && Span(n, l.size) <= USIZE_MAX {
      var (t, out) := Alloc(v.s, Span(n, l.size), l.align, fallible, os);
      AllocKeepsWellformed(v.s, Span(n, l.size), l.align, fallible, os);
      GrowToUnfolds(v, l, n, fallible, os, t, out);
    }
  }

  /** Elements are aligned and pairwise disjoint inside the region. */
  lemma {:induction false} ElementAligned(base: nat, l: Layout, i: nat)
    requires ValidLayout(l) && Aligned(base, l.align)
    ensures Aligned(base + Span(i, l.size), l.align)
  {
    if i > 0 {
      ElementAligned(base, l, i - 1);
      AlignedSum(base + Span(i - 1, l.size), l.size, l.align);
    }
  }

  // ----- single operations -----------------------------------------------------------------------

  lemma EffectKeeps(v: Vec, l: Layout, op: VecOp)
    requires VecOk(v, l) && Enabled(v, l, op, None) && NeedFor(v, op).Enough?
    ensures VecOk(Effect(v, l, op).0, l) && Effect(v, l, op).0.s == v.s && Effect(v, l, op).0.cap == v.cap
  {}

  /** Once grown as asked, the operation needs no more. */
  lemma MoreIsEnough(v: Vec, w: Vec, l: Layout, op: VecOp)
    requires NeedFor(v, op).More? && w.items == v.items && |v.items| <= v.cap
    ensures NeedFor(v, op).cap > v.cap
    ensures w.cap == NeedFor(v, op).cap ==> NeedFor(w, op).Enough?
  {}

  lemma StepUnfolds(v: Vec, l: Layout, op: VecOp, os: Option<nat>)
    requires Shape(v.s) && l.align > 0 && NeedFor(v, op).More?
    ensures var (w, a) := GrowTo(v, l, NeedFor(v, op).cap, IsFallible(op), os);
            Step(v, l, op, os) == if a == Done then Effect(w, l, op) else (w, a)
  {}

  lemma OthersOnly(v: Vec, w: Vec, a: Answer, l: Layout, n: nat, fallible: bool)
    requires AfterGrow(v, w, a, l, n, fallible)
    ensures Others(v) <= Others(w)
  {}

  /** Every operation keeps the vector sound, whatever the answer to a request for a block. */
  lemma StepKeeps(v: Vec, l: Layout, op: VecOp, os: Option<nat>)
    requires VecOk(v, l) && Enabled(v, l, op, os)
    ensures Shape(v.s) && VecOk(Step(v, l, op, os).0, l)
    ensures Others(v) <= Others(Step(v, l, op, os).0)
  {
    SoundShape(v, l);
    match NeedFor(v, op)
    case Enough => EffectKeeps(v, l, op);
    case TooMany =>
    case More(n) =>
      var (w, a) := GrowTo(v, l, n, IsFallible(op), os);
      GrownStepKeeps(v, w, a, l, op, os);
      StepUnfolds(v, l, op, os);
  }

  lemma GrownStepKeeps(v: Vec, w: Vec, a: Answer, l: Layout, op: VecOp, os: Option<nat>)
    requires VecOk(v, l) && Enabled(v, l, op, os) && NeedFor(v, op).More? && Shape(v.s)
    requires (w, a) == GrowTo(v, l, NeedFor(v, op).cap, IsFallible(op), os)
    ensures VecOk(w, l) && Others(v) <= Others(w)
    ensures a == Done ==> VecOk(Effect(w, l, op).0, l) && Others(w) == Others(Effect(w, l, op).0)
  {
    MoreIsEnough(v, w, l, op);
    GrowToKeeps(v, l, NeedFor(v, op).cap, IsFallible(op), os);
    OthersOnly(v, w, a, l, NeedFor(v, op).cap, IsFallible(op));
    if a == Done {
      EffectKeeps(w, l, op);
    }
  }

  /** Elements an operation moves into the vector. */
  function Inserted(items: seq<Item>, op: VecOp): seq<Item> {
    match op
    case Push(x, _) => [x]
    case Extend(xs) => xs
    case Resize(n, x) => if n > |items| then Copies(x, n - |items|) else []
    case Put(i, x) => if i < |items| then [x] else []
    case _ => []
  }

  predicate Lengthens(items: seq<Item>, op: VecOp) {
    op.Push? || op.Extend? || (op.Resize? && op.n > |items|)
  }

  /** Once there is room, lengthening appends the inserted elements. */
  lemma LengtheningAdds(v: Vec, l: Layout, op: VecOp)
    requires Lengthens(v.items, op) && NeedFor(v, op).Enough? && |v.items| <= v.cap && l.align > 0
    requires Enabled(v, l, op, None)
    ensures var xs := Inserted(v.items, op);
            && Effect(v, l, op) == (v.(items := v.items + xs), Done)
            && |v.items| + |xs| <= v.cap && Sized(xs, l.size)
  {}

  /** `w` is `v` after the growth that `op` asked for; what remains is its work on the elements. */
  ghost predicate Prepared(v: Vec, l: Layout, op: VecOp, os: Option<nat>, w: Vec, a: Answer)
    requires l.align > 0
  {
    && Shape(v.s) && Step(v, l, op, os) == (if a == Done then Effect(w, l, op) else (w, a))
    && Others(v) <= Others(w) && w.items == v.items && w.dropped == v.dropped
    && (a == Done ==> NeedFor(w, op).Enough? && Enabled(w, l, op, None))
  }

  lemma StepGrown(v: Vec, l: Layout, op: VecOp, os: Option<nat>, w: Vec, a: Answer)
    requires VecOk(v, l) && Enabled(v, l, op, os) && NeedFor(v, op).More? && Shape(v.s)
    requires (w, a) == GrowTo(v, l, NeedFor(v, op).cap, IsFallible(op), os)
    ensures Prepared(v, l, op, os, w, a)
  {
    MoreIsEnough(v, w, l, op);
    GrowToKeeps(v, l, NeedFor(v, op).cap, IsFallible(op), os);
    OthersOnly(v, w, a, l, NeedFor(v, op).cap, IsFallible(op));
    StepUnfolds(v, l, op, os);
  }

  // ----- runs ------------------------------------------------------------------------------------

  datatype Event = Event(op: VecOp, os: Option<nat>)

  /** Performs operations until one panics; the answers tell how far it got. */
  function Run(v: Vec, l: Layout, events: seq<Event>): (Vec, seq<Answer>)
    requires l.align > 0
    decreases |events|
  {
    if events == [] || !Shape(v.s) then (v, [])
    else
      var (w, a) := Step(v, l, events[0].op, events[0].os);
      if a == Panic then (w, [Panic])
      else
        var (x, rest) := Run(w, l, events[1..]);
        (x, [a] + rest)
  }

  ghost predicate AllEnabled(v: Vec, l: Layout, events: seq<Event>)
    requires l.align > 0
    decreases |events|
  {
    |events| == 0 ||
    (Shape(v.s) && Enabled(v, l, events[0].op, events[0].os)
     && AllEnabled(Step(v, l, events[0].op, events[0].os).0, l, events[1..]))
  }

  /** What an operation does to a plain sequence. */
  function OnSeq(items: seq<Item>, op: VecOp): seq<Item> {
    match op
    case Push(x, _) => items + [x]
    case Pop => if items == [] then [] else items[..|items| - 1]
    case Extend(xs) => items + xs
    case Reserve(_, _, _) => items
    case Truncate(n) => if n < |items| then items[..n] else items
    case Clear => []
    case Resize(n, x) => if n < |items| then items[..n] else items + seq(n - |items|, _ => x)
    case Put(i, x) => if i < |items| then items[i := x] else items
  }

  /** The elements an operation destroys, in order. */
  function Destroyed(items: seq<Item>, op: VecOp): seq<Item> {
    match op
    case Truncate(n) => if n < |items| then items[n..] else []
    case Clear => items
    case Resize(n, _) => if n < |items| then items[n..] else []
    case Put(i, _) => if i < |items| then [items[i]] else []
    case _ => []
  }

  /**
   The reference machine: a plain sequence, how many elements it may hold, and, if the elements have
   destructors (`drops`), those whose destructor has run, oldest first.
   */
  datatype Plain = Plain(items: seq<Item>, cap: nat, dropped: seq<Item>, drops: bool)

  function PlainOf(v: Vec, l: Layout): Plain {
    Plain(v.items, v.cap, v.dropped, l.needsDrop)
  }

  /** The capacity there must be before an operation touches any element: four, then doubling, for a push. */
  function Wanted(p: Plain, op: VecOp): nat {
    match op
    case Push(_, _) => if |p.items| < p.cap then p.cap else if p.cap == 0 then 4 else 2 * p.cap
    case Extend(xs) => Max(p.cap, |p.items| + |xs|)
    case Reserve(n, _, _) => Max(p.cap, |p.items| + n)
    case Resize(n, _) => Max(p.cap, n)
    case _ => p.cap
  }

  /** A refusal is a panic, or an error from the `try_` variants. */
  predicate Refusal(op: VecOp, a: Answer) {
    match op
    case Push(_, fallible) => a == Panic || (fallible && a.Denied?)
    case Reserve(_, _, fallible) => a == Panic || (fallible && a.Denied?)
    case _ => a == Panic
  }

  /** The refusal of a capacity that is not a machine word; a saturating `reserve` may fail later. */
  predicate Overflow(op: VecOp, a: Answer) {
    match op
    case Push(_, fallible) => a == if fallible then Denied(CapacityOverflow) else Panic
    case Reserve(_, exact, fallible) =>
      if exact then a == (if fallible then Denied(CapacityOverflow) else Panic) else Refusal(op, a)
    case _ => a == Panic
  }

  /**
   The answers the reference allows. An operation is refused only if it needs more capacity, and
   always if that capacity is not a machine word; the checked variants then name the reason.
   */
  predicate Allowed(p: Plain, op: VecOp, a: Answer) {
    match op
    case Pop => a == Popped(if p.items == [] then None else Some(p.items[|p.items| - 1]))
    case Put(i, _) => a == if i < |p.items| then Done else Panic
    case _ =>
      if Wanted(p, op) <= p.cap then a == Done
      else if Wanted(p, op) <= USIZE_MAX then a == Done || Refusal(op, a)
      else Overflow(op, a)
  }

  /** The reference after an operation answered by `a`: a refusal changes nothing. */
  function After(p: Plain, op: VecOp, a: Answer): Plain {
    if a.Denied? || a == Panic then p
    else Plain(OnSeq(p.items, op), Wanted(p, op), p.dropped + (if p.drops then Destroyed(p.items, op) else []), p.drops)
  }

  /** The reference after the operations that were granted. */
  function Replayed(p: Plain, events: seq<Event>, answers: seq<Answer>): Plain
    decreases |answers|
  {
    if answers == [] || events == [] then p
    else Replayed(After(p, events[0].op, answers[0]), events[1..], answers[1..])
  }

  predicate AllAllowed(p: Plain, events: seq<Event>, answers: seq<Answer>)
    decreases |answers|
  {
    answers == [] ||
    (events != [] && Allowed(p, events[0].op, answers[0])
     && AllAllowed(After(p, events[0].op, answers[0]), events[1..], answers[1..]))
  }

  /** The capacity of a vector is less than the greatest word: its region lies inside a block. */
  lemma {:induction false} CapIsBelowWord(v: Vec, l: Layout)
    requires VecOk(v, l)
    ensures v.cap < USIZE_MAX
  {
    if v.cap > 0 {
      WellformedMeans(v.s);
      var r := v.s.live[|v.s.live| - 1];
      assert InBlock(v.s, r) && BlkOk(v.s.blocks[r.blk]);
      SpanCovers(v.cap, l.size);
    }
  }

  /** How what the machine asks for relates to what the reference wants. */
  lemma {:induction false} NeedMeaning(p: Plain, op: VecOp)
    requires |p.items| <= p.cap < USIZE_MAX
    ensures match NeedIn(|p.items|, p.cap, op)
            case Enough => Wanted(p, op) <= p.cap
            case TooMany => Wanted(p, op) > USIZE_MAX
            case More(n) => p.cap < Wanted(p, op) && (n == Wanted(p, op) || (n == USIZE_MAX < Wanted(p, op) && op.Reserve? && !op.exact))
    ensures Wanted(p, op) >= p.cap
  {}

  lemma {:induction false} EffectRefines(v: Vec, l: Layout, op: VecOp)
    requires NeedFor(v, op).Enough? && |v.items| <= v.cap < USIZE_MAX
    ensures var (w, a) := Effect(v, l, op);
            Allowed(PlainOf(v, l), op, a) && !a.Denied? && PlainOf(w, l) == After(PlainOf(v, l), op, a)
  {
    NeedMeaning(PlainOf(v, l), op);
    match op
    case Resize(n, x) =>
      if n >= |v.items| {
        assert Copies(x, n - |v.items|) == seq(n - |v.items|, _ => x);
      }
    case _ =>
  }

  /** Growth first, then the work on the elements: seen from the reference that is one operation. */
  lemma {:induction false} PreparedRefines(v: Vec, l: Layout, op: VecOp, os: Option<nat>, w: Vec, a: Answer)
    requires l.align > 0 && Prepared(v, l, op, os, w, a) && NeedFor(v, op).More?
    requires |v.items| <= v.cap < USIZE_MAX && |w.items| <= w.cap < USIZE_MAX
    requires a == Done || a == Panic || (IsFallible(op) && a.Denied?)
    requires w.cap == if a == Done then NeedFor(v, op).cap else v.cap
    ensures var (u, b) := Step(v, l, op, os);
            Allowed(PlainOf(v, l), op, b) && PlainOf(u, l) == After(PlainOf(v, l), op, b)
  {
    NeedMeaning(PlainOf(v, l), op);
    if a == Done {
      NeedMeaning(PlainOf(w, l), op);
      EffectRefines(w, l, op);
    }
  }

  lemma {:induction false} StepRefines(v: Vec, l: Layout, op: VecOp, os: Option<nat>)
    requires VecOk(v, l) && Enabled(v, l, op, os) && Shape(v.s)
    ensures var (w, a) := Step(v, l, op, os);
            Allowed(PlainOf(v, l), op, a) && PlainOf(w, l) == After(PlainOf(v, l), op, a)
  {
    CapIsBelowWord(v, l);
    match NeedFor(v, op)
    case Enough => EffectRefines(v, l, op);
    case TooMany => NeedMeaning(PlainOf(v, l), op);
    case More(n) =>
      var (w, a) := GrowTo(v, l, n, IsFallible(op), os);
      StepGrown(v, l, op, os, w, a);
      GrowOutcome(v, l, op, os, w, a);
      CapIsBelowWord(w, l);
      PreparedRefines(v, l, op, os, w, a);
  }

  lemma GrowOutcome(v: Vec, l: Layout, op: VecOp, os: Option<nat>, w: Vec, a: Answer)
    requires VecOk(v, l) && Enabled(v, l, op, os) && NeedFor(v, op).More? && Shape(v.s)
    requires (w, a) == GrowTo(v, l, NeedFor(v, op).cap, IsFallible(op), os)
    ensures a == Done || a == Panic || (IsFallible(op) && a.Denied?)
    ensures w.cap == (if a == Done then NeedFor(v, op).cap else v.cap) && VecOk(w, l)
  {
    MoreIsEnough(v, w, l, op);
    GrowToKeeps(v, l, NeedFor(v, op).cap, IsFallible(op), os);
  }

  /**
   The answer to a growth request, exactly: it succeeds when the block has room or the arena grants a
   region of a word-sized length. Otherwise an infallible request panics and a fallible one names its
   reason, except that the size computation of a large alignment may panic.
   */
  lemma {:induction false} GrowthAnswer(v: Vec, l: Layout, n: nat, fallible: bool, os: Option<nat>)
    requires VecOk(v, l) && Shape(v.s) && v.cap < n && MayGrow(v, l, n, os)
    ensures var (a, bytes) := (GrowTo(v, l, n, fallible, os).1, Span(n, l.size));
            if HasRoom(v, l, n) || (bytes <= USIZE_MAX && Grants(v.s, bytes, l.align, fallible, os)) then a == Done
            else if !fallible then a == Panic
            else if bytes > USIZE_MAX then a == Denied(CapacityOverflow)
            else if l.align > MIN_BLOCK_ALIGN && bytes + l.align - 1 > USIZE_MAX then a == Panic
            else a == Denied(AllocError)
  {
    var bytes := Span(n, l.size);
    if !HasRoom(v, l, n) && bytes <= USIZE_MAX {
      var (t, out) := Alloc(v.s, bytes, l.align, fallible, os);
      WellformedMeans(v.s);
      AllocMeaning(v.s, bytes, l.align, fallible, os);
      NextBlockCovers(v.s.nextSize, bytes, l.align);
      OverflowIsTurnedAway(v.s, bytes, l.align);
      GrowToUnfolds(v, l, n, fallible, os, t, out);
    }
  }

  /** Up to alignment 64 a fallible request whose worst case overflows may only fail. */
  lemma {:induction false} OverflowIsTurnedAway(s: State, size: nat, align: nat)
    requires BlocksOk(s.blocks) && CursorOk(s) && ValidAlign(align)
    ensures align <= MIN_BLOCK_ALIGN && size + align - 1 > USIZE_MAX ==> TurnedAway(s, size, align, true)
  {
    assert BlkOk(s.blocks[s.current]);
  }

  lemma RunHead(v: Vec, l: Layout, events: seq<Event>)
    requires l.align > 0 && events != [] && Shape(v.s)
    ensures var (w, a) := Step(v, l, events[0].op, events[0].os);
            Run(v, l, events) == if a == Panic then (w, [Panic])
                                 else (Run(w, l, events[1..]).0, [a] + Run(w, l, events[1..]).1)
  {}

  /**
   Any run of operations, with any mix of in-place growth, relocation and refusal, acts as on a
   plain sequence, keeps the arena sound and leaves every other live region in place.
   */
  lemma {:induction false} RunRefines(v: Vec, l: Layout, events: seq<Event>)
    requires VecOk(v, l) && AllEnabled(v, l, events)
    ensures var (w, answers) := Run(v, l, events);
            && VecOk(w, l) && Others(v) <= Others(w)
            && AllAllowed(PlainOf(v, l), events, answers) && PlainOf(w, l) == Replayed(PlainOf(v, l), events, answers)
    decreases |events|
  {
    if |events| > 0 {
      var e := events[0];
      StepKeeps(v, l, e.op, e.os);
      StepRefines(v, l, e.op, e.os);
      var (w, a) := Step(v, l, e.op, e.os);
      RunHead(v, l, events);
      if a == Panic {
        AllowedHead(PlainOf(v, l), events, a, []);
        assert [a] + [] == [a];
      } else {
        RunRefines(w, l, events[1..]);
        AllowedHead(PlainOf(v, l), events, a, Run(w, l, events[1..]).1);
      }
    }
  }

  lemma AllowedHead(p: Plain, events: seq<Event>, a: Answer, rest: seq<Answer>)
    requires events != [] && Allowed(p, events[0].op, a)
    requires AllAllowed(After(p, events[0].op, a), events[1..], rest)
    ensures AllAllowed(p, events, [a] + rest)
    ensures Replayed(p, events, [a] + rest) == Replayed(After(p, events[0].op, a), events[1..], rest)
  {
    assert ([a] + rest)[1..] == rest;
  }

  /** One operation of a run, seen from the state it reaches. */
  lemma RunFrom(v: Vec, l: Layout, events: seq<Event>, w: Vec, a: Answer)
    requires VecOk(v, l) && AllEnabled(v, l, events) && events != []
    requires Shape(v.s) && (w, a) == Step(v, l, events[0].op, events[0].os)
    ensures Others(v) <= Others(w)
    ensures a == Panic ==> Run(v, l, events) == (w, [Panic])
    ensures a != Panic ==> AllEnabled(w, l, events[1..])
                           && Run(v, l, events) == (Run(w, l, events[1..]).0, [a] + Run(w, l, events[1..]).1)
  {
    StepKeeps(v, l, events[0].op, events[0].os);
    RunHead(v, l, events);
  }

  lemma StepKeepsOutside(m: State, v: Vec, l: Layout, op: VecOp, os: Option<nat>)
    requires VecOk(v, l) && Enabled(v, l, op, os) && Shape(v.s) && Since(m, v.s) && |m.live| <= |Others(v)|
    ensures Since(m, Step(v, l, op, os).0.s) && SameLog(v.s, Step(v, l, op, os).0.s)
  {
    match NeedFor(v, op)
    case Enough =>
    case TooMany =>
    case More(n) =>
      MoreIsEnough(v, v, l, op);
      GrowToKeepsCheckpoint(m, v, l, n, IsFallible(op), os);
      GrowToKeepsLog(v, l, n, IsFallible(op), os);
      StepUnfolds(v, l, op, os);
  }

  /**
   Around the vector: whatever a run of operations does, checkpoints taken before the vector's
   region remain valid, and the destructor log is the one the run began with. So nothing the
   vector holds, finished or not, is ever dropped by a rewind or a reset.
   */
  lemma {:induction false} RunKeepsOutside(m: State, v: Vec, l: Layout, events: seq<Event>)
    requires VecOk(v, l) && AllEnabled(v, l, events) && Since(m, v.s) && |m.live| <= |Others(v)|
    ensures Since(m, Run(v, l, events).0.s) && SameLog(v.s, Run(v, l, events).0.s)
    decreases |events|
  {
    if |events| > 0 {
      var e := events[0];
      StepKeeps(v, l, e.op, e.os);
      StepKeepsOutside(m, v, l, e.op, e.os);
      RunHead(v, l, events);
      var (w, a) := Step(v, l, e.op, e.os);
      if a != Panic {
        RunKeepsOutside(m, w, l, events[1..]);
      }
    }
  }

  // ----- conservation of elements ----------------------------------------------------------------

  /** Elements moved out to the caller. */
  function MovedOut(a: Answer): seq<Item> {
    if a.Popped? && a.item.Some? then [a.item.value] else []
  }

  /** How many elements equal `x`. */
  function Count(items: seq<Item>, x: Item): nat {
    if items == [] then 0 else Count(items[..|items| - 1], x) + if items[|items| - 1] == x then 1 else 0
  }

  lemma {:induction false} CountSum(a: seq<Item>, b: seq<Item>, x: Item)
    ensures Count(a + b, x) == Count(a, x) + Count(b, x)
    decreases |b|
  {
    if b == [] {
      assert a + b == a;
    } else {
      assert (a + b)[..|a + b| - 1] == a + b[..|b| - 1];
      CountSum(a, b[..|b| - 1], x);
    }
  }

  lemma {:induction false} CountIsMultiplicity(items: seq<Item>, x: Item)
    ensures Count(items, x) == multiset(items)[x]
  {
    if items != [] {
      CountIsMultiplicity(items[..|items| - 1], x);
      assert items == items[..|items| - 1] + [items[|items| - 1]];
    }
  }

  /** Occurrences of `x` in the vector and among the elements it has dropped. */
  function Holdings(v: Vec, x: Item): nat {
    Count(v.items, x) + Count(v.dropped, x)
  }

  /** Occurrences a step takes in: none when it is refused. */
  function Entered(v: Vec, op: VecOp, a: Answer, x: Item): nat {
    if a.Denied? || a == Panic then 0 else Count(Inserted(v.items, op), x)
  }

  /** Occurrences of `x` that entered the vector over a run. */
  function Ins(v: Vec, l: Layout, events: seq<Event>, x: Item): nat
    requires l.align > 0
    decreases |events|
  {
    if events == [] || !Shape(v.s) then 0
    else
      var (w, a) := Step(v, l, events[0].op, events[0].os);
      Entered(v, events[0].op, a, x) + if a == Panic then 0 else Ins(w, l, events[1..], x)
  }

  /** Occurrences of `x` that were moved out of the vector over a run. */
  function Outs(v: Vec, l: Layout, events: seq<Event>, x: Item): nat
    requires l.align > 0
    decreases |events|
  {
    if events == [] || !Shape(v.s) then 0
    else
      var (w, a) := Step(v, l, events[0].op, events[0].os);
      Count(MovedOut(a), x) + if a == Panic then 0 else Outs(w, l, events[1..], x)
  }

  lemma ShortenConserves(v: Vec, l: Layout, n: nat, x: Item)
    requires l.needsDrop
    ensures Holdings(Shorten(v, l, n), x) == Holdings(v, x)
  {
    if n < |v.items| {
      assert v.items == v.items[..n] + v.items[n..];
      CountSum(v.items[..n], v.items[n..], x);
      CountSum(v.dropped, v.items[n..], x);
    }
  }

  lemma PopConserves(v: Vec, l: Layout, x: Item)
    ensures var (w, a) := Effect(v, l, Pop); Holdings(w, x) + Count(MovedOut(a), x) == Holdings(v, x)
  {
    if v.items != [] {
      var rest, last := v.items[..|v.items| - 1], v.items[|v.items| - 1];
      assert v.items == rest + [last];
      CountSum(rest, [last], x);
    }
  }

  lemma AssignConserves(v: Vec, l: Layout, i: nat, y: Item, x: Item)
    requires l.needsDrop && i < |v.items|
    ensures Holdings(Assign(v, l, i, y), x) == Holdings(v, x) + Count([y], x)
  {
    var a, was, b := v.items[..i], v.items[i], v.items[i + 1..];
    assert v.items == a + ([was] + b) && v.items[i := y] == a + ([y] + b);
    CountSum(a, [was] + b, x);
    CountSum([was], b, x);
    CountSum(a, [y] + b, x);
    CountSum([y], b, x);
    CountSum(v.dropped, [was], x);
  }

  lemma {:induction false} AdditionConserves(v: Vec, l: Layout, op: VecOp, x: Item)
    requires Lengthens(v.items, op)
    ensures var (w, a) := Effect(v, l, op);
            Holdings(w, x) == Holdings(v, x) + Count(Inserted(v.items, op), x) && MovedOut(a) == []
  {
    CountSum(v.items, Inserted(v.items, op), x);
  }

  lemma EffectConserves(v: Vec, l: Layout, op: VecOp, x: Item)
    requires l.needsDrop
    ensures var (w, a) := Effect(v, l, op);
            Holdings(w, x) + Count(MovedOut(a), x) == Holdings(v, x) + Count(Inserted(v.items, op), x)
  {
    if Lengthens(v.items, op) {
      AdditionConserves(v, l, op, x);
    } else {
      match op
      case Pop => PopConserves(v, l, x);
      case Truncate(n) => ShortenConserves(v, l, n, x);
      case Clear => ShortenConserves(v, l, 0, x);
      case Resize(n, _) => ShortenConserves(v, l, n, x);
      case Put(i, y) =>
        if i < |v.items| {
          AssignConserves(v, l, i, y, x);
        }
      case _ =>
    }
  }

  lemma PreparedConserves(v: Vec, l: Layout, op: VecOp, os: Option<nat>, w: Vec, a: Answer, x: Item)
    requires l.needsDrop && l.align > 0 && Prepared(v, l, op, os, w, a)
    requires a == Done || a == Panic || a.Denied?
    ensures var (u, b) := Step(v, l, op, os);
            Holdings(u, x) + Count(MovedOut(b), x) == Holdings(v, x) + Entered(v, op, b, x)
  {
    if a == Done {
      EffectConserves(w, l, op, x);
    }
  }

  lemma StepConserves(v: Vec, l: Layout, op: VecOp, os: Option<nat>, x: Item)
    requires l.needsDrop && VecOk(v, l) && Enabled(v, l, op, os) && Shape(v.s)
    ensures var (w, a) := Step(v, l, op, os);
            Holdings(w, x) + Count(MovedOut(a), x) == Holdings(v, x) + Entered(v, op, a, x)
  {
    match NeedFor(v, op)
    case Enough => PreparedConserves(v, l, op, os, v, Done, x);
    case TooMany => PreparedConserves(v, l, op, os, v, Declined(IsFallible(op), CapacityOverflow), x);
    case More(n) =>
      var (w, a) := GrowTo(v, l, n, IsFallible(op), os);
      StepGrown(v, l, op, os, w, a);
      GrowOutcome(v, l, op, os, w, a);
      PreparedConserves(v, l, op, os, w, a, x);
  }

  lemma InsHead(v: Vec, l: Layout, events: seq<Event>, x: Item, w: Vec, a: Answer)
    requires l.align > 0 && events != [] && Shape(v.s) && (w, a) == Step(v, l, events[0].op, events[0].os)
    ensures Ins(v, l, events, x)
              == Entered(v, events[0].op, a, x) + if a == Panic then 0 else Ins(w, l, events[1..], x)
  {}

  lemma OutsHead(v: Vec, l: Layout, events: seq<Event>, x: Item, w: Vec, a: Answer)
    requires l.align > 0 && events != [] && Shape(v.s) && (w, a) == Step(v, l, events[0].op, events[0].os)
    ensures Outs(v, l, events, x) == Count(MovedOut(a), x) + if a == Panic then 0 else Outs(w, l, events[1..], x)
  {}

  /**
   Over any run, each element that entered the vector is in exactly one place: still in it, moved
   out to the caller, or dropped by its destructor. None is dropped twice, none is lost.
   */
  lemma {:induction false} RunConserves(v: Vec, l: Layout, events: seq<Event>, x: Item)
    requires l.needsDrop && VecOk(v, l) && AllEnabled(v, l, events)
    ensures Holdings(Run(v, l, events).0, x) + Outs(v, l, events, x) == Holdings(v, x) + Ins(v, l, events, x)
    decreases |events|
  {
    if |events| > 0 {
      var e := events[0];
      StepKeeps(v, l, e.op, e.os);
      StepConserves(v, l, e.op, e.os, x);
      RunHead(v, l, events);
      var (w, a) := Step(v, l, e.op, e.os);
      InsHead(v, l, events, x, w, a);
      OutsHead(v, l, events, x, w, a);
      if a != Panic {
        RunConserves(w, l, events[1..], x);
      }
    }
  }

  // ----- amortised growth ------------------------------------------------------------------------

  predicate PushesAndPops(events: seq<Event>) {
    forall k :: 0 <= k < |events| ==> events[k].op.Push? || events[k].op.Pop?
  }

  /** The greatest length reached during a run. */
  function Peak(v: Vec, l: Layout, events: seq<Event>): nat
    requires l.align > 0
    decreases |events|
  {
    if events == [] || !Shape(v.s) then |v.items|
    else
      var (w, a) := Step(v, l, events[0].op, events[0].os);
      Max(|v.items|, if a == Panic then |w.items| else Peak(w, l, events[1..]))
  }

  /** Fewer elements copied than the capacity, which is at most twice the greatest length so far. */
  predicate Amortised(v: Vec, peak: nat) {
    && (v.cap == 0 ==> v.copied == 0)
    && (v.cap > 0 ==> v.copied + 4 <= v.cap)
    && v.cap <= Max(4, 2 * peak) && |v.items| <= peak
  }

  lemma StepAmortised(v: Vec, l: Layout, op: VecOp, os: Option<nat>, peak: nat)
    requires VecOk(v, l) && Enabled(v, l, op, os) && Shape(v.s) && (op.Push? || op.Pop?)
    requires Amortised(v, peak)
    ensures var (w, a) := Step(v, l, op, os); Amortised(w, Max(peak, |w.items|))
  {
    match NeedFor(v, op)
    case Enough =>
    case TooMany =>
    case More(n) =>
      MoreIsEnough(v, v, l, op);
      GrowToKeeps(v, l, n, IsFallible(op), os);
      StepUnfolds(v, l, op, os);
  }

  lemma {:induction false} RunAmortised(v: Vec, l: Layout, events: seq<Event>, peak: nat)
    requires VecOk(v, l) && AllEnabled(v, l, events) && PushesAndPops(events) && Amortised(v, peak)
    ensures Amortised(Run(v, l, events).0, Max(peak, Peak(v, l, events)))
    decreases |events|
  {
    if |events| > 0 {
      var e := events[0];
      StepKeeps(v, l, e.op, e.os);
      StepAmortised(v, l, e.op, e.os, peak);
      RunHead(v, l, events);
      var (w, a) := Step(v, l, e.op, e.os);
      if a != Panic {
        RunAmortised(w, l, events[1..], Max(peak, |w.items|));
        PeakCovers(w, l, events[1..]);
      }
    }
  }

  lemma PeakCovers(v: Vec, l: Layout, events: seq<Event>)
    requires l.align > 0
    ensures |v.items| <= Peak(v, l, events)
  {}

  /**
   A vector grown from empty by pushes and pops only: all relocations together copied fewer
   elements than the final capacity, and the capacity is at most four or twice the peak length.
   */
  lemma GrowthIsAmortised(s: State, l: Layout, events: seq<Event>)
    requires Wellformed(s) && ValidLayout(l)
    requires AllEnabled(Vec(s, [], 0, [], 0), l, events) && PushesAndPops(events)
    ensures var v := Vec(s, [], 0, [], 0);
            var w := Run(v, l, events).0;
            && (w.cap > 0 ==> w.copied < w.cap) && (w.cap == 0 ==> w.copied == 0)
            && w.cap <= Max(4, 2 * Peak(v, l, events))
  {
    RunAmortised(Vec(s, [], 0, [], 0), l, events, 0);
  }
}

/**
 The growable vector of src/vec/arena_vec.rs over a real arena: elements live as bytes in one
 arena region, growth extends the region at the cursor or copies it to a new one. Every method is
 proved to be the corresponding step of `VecModel` and to leave all other live regions' bytes
 alone.
 */
module ArenaVecs {
  import opened Bits
  import opened Wrappers
  import opened ArenaModel
  import opened ArenaInvariants
  import opened Arenas
  import opened VecModel

  // ----- elements as bytes -----------------------------------------------------------------------

  /** The elements' bytes, one after another. */
  function Flat(items: seq<Item>): seq<byte> {
    if items == [] then [] else Flat(items[..|items| - 1]) + items[|items| - 1]
  }

  lemma FlatPush(items: seq<Item>, x: Item)
    ensures Flat(items + [x]) == Flat(items) + x
  {}

  lemma {:induction false} FlatLength(items: seq<Item>, size: nat)
    requires Sized(items, size)
    ensures |Flat(items)| == Span(|items|, size)
  {
    if items != [] {
      FlatLength(items[..|items| - 1], size);
    }
  }

  lemma {:induction false} FlatPrefix(items: seq<Item>, size: nat, n: nat)
    requires Sized(items, size) && n <= |items|
    ensures Span(n, size) <= |Flat(items)| && Flat(items[..n]) == Flat(items)[..Span(n, size)]
    decreases |items|
  {
    FlatLength(items, size);
    if n < |items| {
      var rest := items[..|items| - 1];
      FlatPrefix(rest, size, n);
      assert rest[..n] == items[..n];
    } else {
      assert items[..n] == items;
    }
  }

  /** Element `i` is found `i` element sizes into the region. */
  lemma FlatAt(items: seq<Item>, size: nat, i: nat)
    requires Sized(items, size) && i < |items|
    ensures Span(i, size) + size <= |Flat(items)|
    ensures Flat(items)[Span(i, size)..Span(i, size) + size] == items[i]
  {
    FlatPrefix(items, size, i);
    FlatPrefix(items, size, i + 1);
    assert items[..i + 1] == items[..i] + [items[i]];
    FlatPush(items[..i], items[i]);
    FlatLength(items[..i], size);
  }

  /** Overwriting element `i` in place. */
  lemma {:induction false} FlatUpdate(items: seq<Item>, size: nat, i: nat, x: Item)
    requires Sized(items, size) && i < |items| && |x| == size
    ensures Span(i, size) + size <= |Flat(items)|
    ensures Flat(items[i := x]) == Flat(items)[..Span(i, size)] + x + Flat(items)[Span(i, size) + size..]
    decreases |items|
  {
    FlatAt(items, size, i);
    var n := |items| - 1;
    FlatLength(items[..n], size);
    if i < n {
      FlatUpdate(items[..n], size, i, x);
      assert items[i := x][..n] == items[..n][i := x];
    } else {
      assert items[i := x][..n] == items[..n];
    }
  }

  /** Equal bytes mean equal elements: the memory determines the sequence. */
  lemma {:induction false} FlatInjective(a: seq<Item>, b: seq<Item>, size: nat)
    requires Sized(a, size) && Sized(b, size) && |a| == |b| && Flat(a) == Flat(b)
    ensures a == b
  {
    forall i | 0 <= i < |a| ensures a[i] == b[i] {
      FlatAt(a, size, i);
      FlatAt(b, size, i);
    }
  }

  /** Writing just past stored bytes. */
  lemma StoredPush(before: seq<byte>, after: seq<byte>, off: nat, stored: seq<byte>, x: seq<byte>)
    requires |before| == |after| && off + |stored| + |x| <= |before|
    requires before[off..off + |stored|] == stored && after[off + |stored|..off + |stored| + |x|] == x
    requires forall o :: off <= o < off + |stored| ==> after[o] == before[o]
    ensures after[off..off + |stored| + |x|] == stored + x
  {}

  lemma SliceOfSlice(s: seq<byte>, off: nat, n: nat, from: nat, to: nat)
    requires from <= to <= n && off + n <= |s|
    ensures s[off..off + n][from..to] == s[off + from..off + to]
  {
    var stored, part := s[off..off + n], s[off + from..off + to];
    forall k | 0 <= k < to - from ensures stored[from..to][k] == part[k] {
      assert stored[from + k] == s[off + (from + k)];
    }
  }

  /** Element `i` where elements are stored. */
  lemma StoredAt(data: array<byte>, off: nat, items: seq<Item>, size: nat, i: nat)
    requires Sized(items, size) && i < |items|
    requires off + |Flat(items)| <= data.Length && data[off..off + |Flat(items)|] == Flat(items)
    ensures off + i * size + size <= data.Length && data[off + i * size..off + i * size + size] == items[i]
  {
    FlatAt(items, size, i);
    SpanIsProduct(i, size);
    SliceOfSlice(data[..], off, |Flat(items)|, Span(i, size), Span(i, size) + size);
  }

  /** Fewer elements are stored where more are. */
  lemma StoredPrefix(data: array<byte>, off: nat, items: seq<Item>, size: nat, n: nat)
    requires Sized(items, size) && n <= |items|
    requires off + |Flat(items)| <= data.Length && data[off..off + |Flat(items)|] == Flat(items)
    ensures |Flat(items[..n])| <= |Flat(items)|
    ensures data[off..off + |Flat(items[..n])|] == Flat(items[..n])
  {
    FlatPrefix(items, size, n);
    SliceOfSlice(data[..], off, |Flat(items)|, 0, Span(n, size));
  }

  lemma SizedSlice(a: seq<Item>, b: seq<Item>, i: nat, size: nat)
    requires Sized(a, size) && Sized(b, size) && i <= |b|
    ensures Sized(a + b[..i], size) && |a + b[..i]| == |a| + i
    ensures if i < |b| then a + b[..i + 1] == a + b[..i] + [b[i]] && |b[i]| == size else a + b[..i] == a + b
  {}

  /** Overwriting `|x|` bytes inside stored ones. */
  lemma Spliced(before: seq<byte>, after: seq<byte>, off: nat, stored: seq<byte>, at: nat, x: seq<byte>)
    requires |before| == |after| && off + |stored| <= |before| && before[off..off + |stored|] == stored
    requires at + |x| <= |stored| && after[off + at..off + at + |x|] == x
    requires forall o :: 0 <= o < |after| && !(off + at <= o < off + at + |x|) ==> after[o] == before[o]
    ensures after[off..off + |stored|] == stored[..at] + x + stored[at + |x|..]
  {
    var want := stored[..at] + x + stored[at + |x|..];
    forall k | 0 <= k < |stored| ensures after[off + k] == want[k] {
      assert before[off + k] == stored[k];
      if at <= k < at + |x| {
        assert after[off + at..off + at + |x|][k - at] == after[off + k];
      }
    }
  }

  /** Overwriting one stored element, which starts `at` bytes into the stored ones. */
  lemma StoredUpdate(before: seq<byte>, after: seq<byte>, off: nat, items: seq<Item>, i: nat, at: nat, x: Item)
    requires Sized(items, |x|) && i < |items| && at == Span(i, |x|)
    requires |before| == |after| && off + |Flat(items)| <= |before| && before[off..off + |Flat(items)|] == Flat(items)
    requires off + at + |x| <= |after| && after[off + at..off + at + |x|] == x
    requires forall o :: 0 <= o < |after| && !(off + at <= o < off + at + |x|) ==> after[o] == before[o]
    ensures off + |Flat(items[i := x])| <= |after|
    ensures after[off..off + |Flat(items[i := x])|] == Flat(items[i := x])
  {
    FlatUpdate(items, |x|, i, x);
    Spliced(before, after, off, Flat(items), at, x);
  }

  // ----- bytes of live regions -------------------------------------------------------------------

  /** What the blocks' memory holds. */
  ghost function MemoryOf(blocks: seq<Block>): (m: seq<seq<byte>>)
    reads set b | b in blocks :: b.data
    ensures |m| == |blocks| && forall i :: 0 <= i < |blocks| ==> m[i] == blocks[i].data[..]
  {
    if blocks == [] then [] else MemoryOf(blocks[..|blocks| - 1]) + [blocks[|blocks| - 1].data[..]]
  }

  function BytesIn(m: seq<seq<byte>>, r: Region): seq<byte> {
    if r.blk < |m| && r.off + r.size <= |m[r.blk]| then m[r.blk][r.off..r.off + r.size] else []
  }

  /** The regions hold the same bytes in both memories. */
  ghost predicate Kept(m: seq<seq<byte>>, n: seq<seq<byte>>, rs: seq<Region>) {
    forall k :: 0 <= k < |rs| ==> BytesIn(n, rs[k]) == BytesIn(m, rs[k])
  }

  lemma KeptAfter(m: seq<seq<byte>>, n: seq<seq<byte>>, o: seq<seq<byte>>, rs: seq<Region>, more: seq<Region>)
    requires (Kept(m, n, rs) || Kept(m, n, more)) && rs <= more && Kept(n, o, more)
    ensures Kept(m, o, rs)
  {}

  /** Added blocks change no existing byte. */
  lemma KeptByGrowth(s: State, m: seq<seq<byte>>, n: seq<seq<byte>>)
    requires Wellformed(s) && |s.blocks| == |m| && m <= n
    ensures Kept(m, n, s.live)
  {
    WellformedMeans(s);
    forall k | 0 <= k < |s.live| ensures BytesIn(n, s.live[k]) == BytesIn(m, s.live[k]) {
      assert InBlock(s, s.live[k]);
    }
  }

  /** Writes inside the newest region leave the bytes of every other live region alone. */
  lemma KeptByWrite(s: State, m: seq<seq<byte>>, after: seq<byte>)
    requires Wellformed(s) && s.live != []
    requires var r := s.live[|s.live| - 1];
             && r.blk < |m| && |after| == |m[r.blk]|
             && forall o :: 0 <= o < |after| && !(r.off <= o < r.off + r.size) ==> after[o] == m[r.blk][o]
    ensures Kept(m, m[s.live[|s.live| - 1].blk := after], s.live[..|s.live| - 1])
  {
    WellformedMeans(s);
    var last := |s.live| - 1;
    var rs, n := s.live[..last], m[s.live[last].blk := after];
    forall k | 0 <= k < |rs| ensures BytesIn(n, rs[k]) == BytesIn(m, rs[k]) {
      assert Ordered(s.live, k, last);
      var r := rs[k];
      if r.blk < |m| && r.off + r.size <= |m[r.blk]| {
        assert m[r.blk][r.off..r.off + r.size] == n[r.blk][r.off..r.off + r.size];
      }
    }
  }

  /** When only block `c`'s bytes differ from `m`, memory is `m` with that block's bytes replaced. */
  lemma OneBlockWritten(blocks: seq<Block>, c: nat, m: seq<seq<byte>>)
    requires c < |blocks| == |m|
    requires forall i :: 0 <= i < |blocks| && i != c ==> blocks[i].data[..] == m[i]
    ensures MemoryOf(blocks) == m[c := blocks[c].data[..]]
  {}

  /** `copy_nonoverlapping`. */
  method CopyBytes(src: array<byte>, from: nat, dst: array<byte>, to: nat, n: nat)
    requires from + n <= src.Length && to + n <= dst.Length
    requires src != dst || from + n <= to || to + n <= from
    modifies dst
    ensures dst[to..to + n] == old(src[from..from + n])
    ensures forall o :: 0 <= o < dst.Length && !(to <= o < to + n) ==> dst[o] == old(dst[o])
  {
    for i := 0 to n
      invariant dst[to..to + i] == old(src[from..from + i])
      invariant forall o :: 0 <= o < dst.Length && !(to <= o < to + i) ==> dst[o] == old(dst[o])
    {
      dst[to + i] := src[from + i];
    }
  }

  /** The clauses that root a vector in its arena. */
  datatype Root = ArenaValid | VecSound | AtTail

  class ArenaVec {
    const arena: Arena
    const layout: ElemLayout
    var blk: nat
    var off: nat
    var len: nat
    var cap: nat
    var dropLog: seq<Item>  // elements whose destructor has run, in order
    ghost var items: seq<Item>
    ghost var copied: nat

    ghost function View(): Vec
      reads this, arena
    {
      Vec(arena.model, items, cap, dropLog, copied)
    }

    /** The pointer is the start of the newest live region. */
    ghost predicate Points()
      reads this, arena
    {
      cap > 0 ==>
        && arena.model.live != []
        && arena.model.live[|arena.model.live| - 1].blk == blk && arena.model.live[|arena.model.live| - 1].off == off
    }

    /** The region starts with the bytes of `ys`. */
    ghost predicate Stores(ys: seq<Item>)
      reads this, arena`blocks, set b | b in arena.blocks :: b.data
    {
      cap > 0 ==>
        && blk < |arena.blocks| && off + |Flat(ys)| <= arena.blocks[blk].data.Length
        && arena.blocks[blk].data[off..off + |Flat(ys)|] == Flat(ys)
    }

    ghost predicate RootSays(c: Root)
      reads this, arena, arena.blocks, arena.dropRegistry, arena.dropRegistry.Repr
    {
      match c
      case ArenaValid => arena.Valid() && this !in arena.dropRegistry.Repr
      case VecSound => VecOk(View(), layout) && len == |items|
      case AtTail => Points()
    }

    /** Everything but the elements themselves. */
    ghost predicate Rooted()
      reads this, arena, arena.blocks, arena.dropRegistry, arena.dropRegistry.Repr
    {
      forall c: Root :: RootSays(c)
    }

    lemma RootedMeans()
      ensures Rooted() <==> arena.Valid() && this !in arena.dropRegistry.Repr
                            && VecOk(View(), layout) && len == |items| && Points()
    {
      if Rooted() {
        assert RootSays(ArenaValid) && RootSays(VecSound) && RootSays(AtTail);
      }
    }

    ghost predicate Valid()
      reads this, arena, arena.blocks, arena.dropRegistry, arena.dropRegistry.Repr
      reads set b | b in arena.blocks :: b.data
    {
      Rooted() && Stores(items) && len == |items| <= cap
    }

    constructor (arena: Arena, layout: ElemLayout)
      requires arena.Valid()
      ensures Valid() && this.arena == arena && this.layout == layout
      ensures View() == Vec(arena.model, [], 0, [], 0)
    {
      this.arena := arena;
      this.layout := layout;
      blk, off, len, cap := 0, 0, 0, 0;
      dropLog := [];
      items := [];
      copied := 0;
      new;
      arena.ValidMeans();
      RootedMeans();
    }

    /** Where the region lies in memory. */
    lemma RegionInside()
      requires Rooted() && cap > 0
      ensures blk == arena.model.current < |arena.blocks| == |arena.model.blocks|
      ensures off + Span(cap, layout.size) == arena.model.used
      ensures off + Span(cap, layout.size) <= arena.blocks[blk].data.Length
      ensures AllDistinct(arena.blocks) && arena.Valid() && Wellformed(arena.model)
      ensures arena.model.live != [] && Others(View()) == arena.model.live[..|arena.model.live| - 1]
      ensures var r := arena.model.live[|arena.model.live| - 1];
              r.blk == blk && r.off == off && r.size == Span(cap, layout.size)
    {
      RootedMeans();
      arena.PlacedInside(|arena.model.live| - 1);
      arena.ValidMeans();
      WellformedMeans(arena.model);
    }

    ghost function Memory(): seq<seq<byte>>
      reads arena`blocks, set b | b in arena.blocks :: b.data
    {
      MemoryOf(arena.blocks)
    }

    /** The vector's tail is the cursor. */
    lemma TailAddress()
      requires Rooted() && cap > 0
      ensures blk < |arena.blocks| && arena.blocks[blk].base + off + cap * layout.size == arena.curPtr
    {
      RegionInside();
      RootedMeans();
      arena.ValidMeans();
      arena.FieldsAgree();
      arena.BlockAt(blk);
      SpanIsProduct(cap, layout.size);
    }

    /** The cursor's fields as addresses. */
    lemma CursorAddress()
      requires Rooted() && cap > 0
      ensures Shape(arena.model)
      ensures var b := arena.model.blocks[arena.model.current];
              && arena.curBase == b.base && arena.curPtr == b.base + arena.model.used && arena.curEnd == b.base + b.capacity
      ensures off + Span(cap, layout.size) == arena.model.used
    {
      RegionInside();
      RootedMeans();
      arena.ValidMeans();
      arena.FieldsAgree();
    }

    /** Address arithmetic of the in-place test. */
    lemma RoomAddress(n: nat)
      requires Rooted() && 0 < cap < n
      ensures Span(n - cap, layout.size) == (n - cap) * layout.size && Span(cap, layout.size) <= Span(n, layout.size)
      ensures PassesTest(View(), layout, n) <==> WrappedEnd(arena.curPtr, Span(n - cap, layout.size)) <= arena.curEnd
      ensures HasRoom(View(), layout, n) ==>
                && PassesTest(View(), layout, n)
                && WrappedEnd(arena.curPtr, Span(n - cap, layout.size)) == arena.curBase + off + Span(n, layout.size)
    {
      CursorAddress();
      RootedMeans();
      SpanSum(cap, n - cap, layout.size);
      SpanIsProduct(n - cap, layout.size);
      TestIsSoundIff(View(), layout, n);
    }

    // ----- growth --------------------------------------------------------------------------------

    /** Extends the region when its end is the cursor and the current block has room. */
    method TryInPlace(n: nat) returns (ok: bool)
      requires Valid() && 0 < cap < n <= USIZE_MAX && TestIsSound(View(), layout, n)
      modifies `cap, arena`curPtr, arena`model
      ensures Valid() && ok == HasRoom(old(View()), layout, n)
      ensures View() == if ok then old(View()).(s := GrowNewest(old(arena.model), Span(n, layout.size)), cap := n)
                        else old(View())
      ensures ok ==> Others(View()) == old(Others(View()))
      ensures Shape(old(arena.model))
      ensures forall fallible, os :: ok ==> VecModel.GrowTo(old(View()), layout, n, fallible, os) == (View(), Done)
    {
      RootedMeans();
      SoundShape(View(), layout);
      TailAddress();
      RoomAddress(n);
      var ourEnd := arena.blocks[blk].base + off + cap * layout.size;
      if ourEnd == arena.curPtr {
        var newEnd := WrappedEnd(ourEnd, (n - cap) * layout.size);
        if newEnd <= arena.curEnd {
          InPlaceGrew(View(), layout, n);
          arena.ExtendNewest(newEnd, Span(n, layout.size));
          cap := n;
          RootedMeans();
          return true;
        }
      }
      ok := false;
    }

    lemma LiveInBlocks()
      requires arena.Valid()
      ensures |arena.blocks| == |arena.model.blocks|
    {
      arena.ValidMeans();
      arena.FieldsAgree();
    }

    /** Asks the arena for a region of `n` elements; no byte of memory changes. */
    method RequestRegion(n: nat, fallible: bool, os: Option<nat>) returns (out: Outcome)
      requires Valid() && cap < n && MayGrow(View(), layout, n, os) && !HasRoom(View(), layout, n)
      modifies arena, arena.blocks
      ensures arena.Valid() && arena.Extended(old(arena.blocks)) && this !in arena.dropRegistry.Repr
      ensures Stores(items) && Kept(old(Memory()), Memory(), old(arena.model.live))
      ensures Offered(old(View()), layout, n, arena.model, out)
      ensures Shape(old(arena.model))
      ensures (arena.model, out) == Alloc(old(arena.model), Span(n, layout.size), layout.align, fallible, os)
    {
      RootedMeans();
      SoundShape(View(), layout);
      LiveInBlocks();
      ghost var v, blocks, m := View(), arena.blocks, Memory();
      out := arena.AllocRaw(Span(n, layout.size), layout.align, fallible, os);
      RelocationOffers(v, layout, n, fallible, os, arena.model, out);
      assert MemoryOf(blocks) == m;
      KeptByGrowth(v.s, m, Memory());
    }

    /** Makes the newest region, sized for `n` elements, the vector's. */
    method Adopt(b: nat, o: nat, n: nat)
      requires arena.Valid() && this !in arena.dropRegistry.Repr && len == |items| <= cap < n
      requires VecOk(View().(cap := n, copied := copied + len), layout)
      requires var r := arena.model.live[|arena.model.live| - 1]; r.blk == b && r.off == o
      modifies this
      ensures Rooted() && View() == old(View()).(cap := n, copied := old(copied) + old(len))
      ensures blk == b && off == o && len == old(len)
    {
      blk, off, cap, copied := b, o, n, copied + len;
      RootedMeans();
    }

    /** Copies `n` bytes of another block to the start of the vector's region. */
    method CopyInto(fromBlk: nat, fromOff: nat, n: nat)
      requires Rooted() && 0 < cap && n <= Span(cap, layout.size)
      requires blk < |arena.blocks| && fromBlk < |arena.blocks| && fromBlk != blk
      requires fromOff + n <= arena.blocks[fromBlk].data.Length
      modifies {arena.blocks[blk].data}
      ensures Rooted() && View() == old(View()) && off + n <= arena.blocks[blk].data.Length
      ensures arena.blocks[blk].data[off..off + n] == old(arena.blocks[fromBlk].data[fromOff..fromOff + n])
      ensures forall o :: 0 <= o < arena.blocks[blk].data.Length && !(off <= o < off + n) ==>
                arena.blocks[blk].data[o] == old(arena.blocks[blk].data[o])
    {
      RegionInside();
      arena.DataApart();
      arena.DistinctFrom(blk);
      CopyBytes(arena.blocks[fromBlk].data, fromOff, arena.blocks[blk].data, off, n);
    }

    /** `m` is memory before bytes inside the vector's region were written, and nothing else. */
    lemma WroteInside(m: seq<seq<byte>>)
      requires Rooted() && cap > 0 && blk < |arena.blocks| == |m|
      requires forall i :: 0 <= i < |m| && i != blk ==> arena.blocks[i].data[..] == m[i]
      requires |m[blk]| == arena.blocks[blk].data.Length
      requires forall o :: 0 <= o < |m[blk]| && !(off <= o < off + Span(cap, layout.size)) ==>
                 arena.blocks[blk].data[o] == m[blk][o]
      ensures Kept(m, Memory(), Others(View()))
    {
      RegionInside();
      OneBlockWritten(arena.blocks, blk, m);
      var after := arena.blocks[blk].data[..];
      assert forall o :: 0 <= o < |after| ==> after[o] == arena.blocks[blk].data[o];
      KeptByWrite(arena.model, m, after);
    }

    /** The elements fit in the region. */
    lemma StoredLength()
      requires Rooted()
      ensures len == |items| <= cap && |Flat(items)| == len * layout.size <= Span(cap, layout.size)
    {
      ItemsSized();
      FlatLength(items, layout.size);
      SpanIsProduct(len, layout.size);
      SpanMonotone(len, cap, layout.size);
    }

    /** Fills the start of the vector's region with the `n` bytes of `ys`, found in another block. */
    method CopyStored(fromBlk: nat, fromOff: nat, n: nat, ghost ys: seq<Item>)
      requires Rooted() && cap > 0 && fromBlk != blk && fromBlk < |arena.blocks|
      requires n == |Flat(ys)| <= Span(cap, layout.size)
      requires fromOff + n <= arena.blocks[fromBlk].data.Length
      requires arena.blocks[fromBlk].data[fromOff..fromOff + n] == Flat(ys)
      modifies set block | block in arena.blocks :: block.data
      ensures Rooted() && View() == old(View()) && Stores(ys)
      ensures Kept(old(Memory()), Memory(), Others(View()))
    {
      RegionInside();
      arena.DistinctFrom(blk);
      CopyInto(fromBlk, fromOff, n);
      WroteInside(old(Memory()));
    }

    /** Fills the vector's region with the elements stored in another block. */
    method CopyElements(fromBlk: nat, fromOff: nat)
      requires Rooted() && cap > 0 && fromBlk != blk && fromBlk < |arena.blocks|
      requires fromOff + |Flat(items)| <= arena.blocks[fromBlk].data.Length
      requires arena.blocks[fromBlk].data[fromOff..fromOff + |Flat(items)|] == Flat(items)
      modifies set block | block in arena.blocks :: block.data
      ensures Valid() && View() == old(View())
      ensures Kept(old(Memory()), Memory(), Others(View()))
    {
      StoredLength();
      CopyStored(fromBlk, fromOff, len * layout.size, items);
    }

    /** Second half of a relocation: the new region is `(b, o)`, in a later block than the old one. */
    method MoveTo(b: nat, o: nat, n: nat)
      requires arena.Valid() && this !in arena.dropRegistry.Repr && Stores(items) && len == |items| <= cap < n
      requires VecOk(View().(cap := n, copied := copied + len), layout)
      requires var r := arena.model.live[|arena.model.live| - 1]; r.blk == b && r.off == o
      requires cap > 0 ==> blk < b
      modifies this, set block | block in arena.blocks :: block.data
      ensures Valid() && View() == old(View()).(cap := n, copied := old(copied) + old(len))
      ensures Kept(old(Memory()), Memory(), Others(View()))
    {
      var fromBlk, fromOff := blk, off;
      Adopt(b, o, n);
      RegionInside();
      if len > 0 {
        CopyElements(fromBlk, fromOff);
      }
    }

    /** Adopts a placed region after copying into it, or reports why there is none. */
    method Receive(out: Outcome, n: nat, ghost rs: seq<Region>) returns (a: Answer)
      requires arena.Valid() && this !in arena.dropRegistry.Repr && Stores(items) && len == |items| <= cap < n
      requires VecOk(Adopted(View(), n, arena.model, out).0, layout) && (!out.Placed? ==> Points())
      requires out.Placed? ==>
                 && arena.model.live != [] && arena.model.live[..|arena.model.live| - 1] == rs
                 && (cap > 0 ==> blk < out.blk)
                 && arena.model.live[|arena.model.live| - 1].blk == out.blk
                 && arena.model.live[|arena.model.live| - 1].off == out.off
      modifies this, set block | block in arena.blocks :: block.data
      ensures Valid() && (View(), a) == Adopted(old(View()), n, arena.model, out)
      ensures Kept(old(Memory()), Memory(), rs)
    {
      match out {
        case Failed => a := Denied(AllocError);
        case Panicked => a := Panic;
        case Placed(b, o) =>
          MoveTo(b, o, n);
          assert Others(View()) == rs;
          a := Done;
      }
    }

    method Relocate(n: nat, fallible: bool, os: Option<nat>) returns (a: Answer)
      requires Valid() && cap < n && MayGrow(View(), layout, n, os) && !HasRoom(View(), layout, n)
      requires Span(n, layout.size) <= USIZE_MAX
      modifies this, arena, arena.blocks, set block | block in arena.blocks :: block.data
      ensures Valid() && arena.Extended(old(arena.blocks))
      ensures Shape(old(arena.model)) && (View(), a) == VecModel.GrowTo(old(View()), layout, n, fallible, os)
      ensures Kept(old(Memory()), Memory(), old(Others(View())))
    {
      RootedMeans();
      ghost var v := View();
      var out := RequestRegion(n, fallible, os);
      AdoptedFrom(v, View(), n, arena.model, out);
      GrowToUnfolds(v, layout, n, fallible, os, arena.model, out);
      ghost var m := Memory();
      a := Receive(out, n, v.s.live);
      KeptAfter(old(Memory()), m, Memory(), Others(v), v.s.live);
    }

    /** `grow_to` and `try_grow_to`. */
    method GrowTo(n: nat, fallible: bool, os: Option<nat>) returns (a: Answer)
      requires Valid() && cap < n && MayGrow(View(), layout, n, os)
      modifies this, arena, arena.blocks, set block | block in arena.blocks :: block.data
      ensures Valid() && arena.Extended(old(arena.blocks))
      ensures Shape(old(arena.model)) && (View(), a) == VecModel.GrowTo(old(View()), layout, n, fallible, os)
      ensures Kept(old(Memory()), Memory(), old(Others(View())))
    {
      RootedMeans();
      SoundShape(View(), layout);
      if cap > 0 {
        var inPlace := TryInPlace(n);
        if inPlace {
          return Done;
        }
      }
      SpanIsProduct(n, layout.size);
      if n * layout.size > USIZE_MAX {
        return Declined(fallible, CapacityOverflow);
      }
      a := Relocate(n, fallible, os);
    }

    /** Grows to the capacity `n` that `op` needs. */
    method GrowFor(n: nat, fallible: bool, os: Option<nat>, ghost op: VecOp) returns (a: Answer)
      requires Valid() && Enabled(View(), layout, op, os)
      requires NeedFor(View(), op) == More(n) && fallible == IsFallible(op)
      modifies this, arena, arena.blocks, set block | block in arena.blocks :: block.data
      ensures Valid() && arena.Extended(old(arena.blocks)) && Prepared(old(View()), layout, op, os, View(), a)
      ensures Kept(old(Memory()), Memory(), old(Others(View())))
    {
      RootedMeans();
      SoundShape(View(), layout);
      MoreIsEnough(View(), View(), layout, op);
      ghost var v := View();
      a := GrowTo(n, fallible, os);
      StepGrown(v, layout, op, os, View(), a);
    }

    /** Grows to `n` if the capacity is smaller. */
    method EnsureRoom(n: nat, fallible: bool, os: Option<nat>, ghost op: VecOp) returns (a: Answer)
      requires Valid() && Enabled(View(), layout, op, os) && fallible == IsFallible(op)
      requires NeedFor(View(), op) == if n > cap then More(n) else Enough
      modifies this, arena, arena.blocks, set block | block in arena.blocks :: block.data
      ensures Valid() && arena.Extended(old(arena.blocks)) && Prepared(old(View()), layout, op, os, View(), a)
      ensures Kept(old(Memory()), Memory(), old(Others(View())))
    {
      RootedMeans();
      SoundShape(View(), layout);
      a := Done;
      if n > cap {
        a := GrowFor(n, fallible, os, op);
      }
    }

    /** `grow` and `try_grow`, called when a push finds the vector full. */
    method Grow(fallible: bool, os: Option<nat>, ghost op: VecOp) returns (a: Answer)
      requires Valid() && len == cap && op.Push? && fallible == op.fallible && Enabled(View(), layout, op, os)
      modifies this, arena, arena.blocks, set block | block in arena.blocks :: block.data
      ensures Valid() && arena.Extended(old(arena.blocks)) && Prepared(old(View()), layout, op, os, View(), a)
      ensures Kept(old(Memory()), Memory(), old(Others(View())))
    {
      RootedMeans();
      SoundShape(View(), layout);
      var n := 4;
      if cap > 0 {
        if cap * 2 > USIZE_MAX {
          return Declined(fallible, CapacityOverflow);
        }
        n := cap * 2;
      }
      a := GrowFor(n, fallible, os, op);
    }

    // ----- reading and writing elements ----------------------------------------------------------

    lemma ItemsSized()
      requires Rooted()
      ensures Sized(items, layout.size) && len == |items| <= cap && Others(View()) <= arena.model.live
    {
      RootedMeans();
    }

    /** Reads element `i`. */
    method Read(i: nat) returns (x: Item)
      requires Valid() && i < len
      ensures x == items[i]
    {
      ItemsSized();
      StoredAt(arena.blocks[blk].data, off, items, layout.size, i);
      var at := off + i * layout.size;
      x := arena.blocks[blk].data[at..at + layout.size];
    }

    /** Writes bytes inside the vector's region. */
    method WriteInside(at: nat, bytes: seq<byte>)
      requires Rooted() && cap > 0 && at + |bytes| <= Span(cap, layout.size) && blk < |arena.blocks|
      modifies {arena.blocks[blk].data}
      ensures Rooted() && View() == old(View()) && off + at + |bytes| <= arena.blocks[blk].data.Length
      ensures arena.blocks[blk].data[off + at..off + at + |bytes|] == bytes
      ensures forall o :: 0 <= o < arena.blocks[blk].data.Length && !(off + at <= o < off + at + |bytes|) ==>
                arena.blocks[blk].data[o] == old(arena.blocks[blk].data[o])
    {
      RegionInside();
      arena.DataApart();
      arena.WriteBytes(blk, off + at, bytes);
    }

    method WriteAt(at: nat, bytes: seq<byte>)
      requires Rooted() && cap > 0 && at + |bytes| <= Span(cap, layout.size) && blk < |arena.blocks|
      modifies {arena.blocks[blk].data}
      ensures Rooted() && View() == old(View()) && off + at + |bytes| <= arena.blocks[blk].data.Length
      ensures arena.blocks[blk].data[off + at..off + at + |bytes|] == bytes
      ensures forall o :: 0 <= o < arena.blocks[blk].data.Length && !(off + at <= o < off + at + |bytes|) ==>
                arena.blocks[blk].data[o] == old(arena.blocks[blk].data[o])
      ensures Kept(old(Memory()), Memory(), Others(View()))
    {
      RegionInside();
      arena.DistinctFrom(blk);
      WriteInside(at, bytes);
      WroteInside(old(Memory()));
    }

    /** Writes bytes just after those of the elements `ys`. */
    method Append(at: nat, x: Item, ghost ys: seq<Item>)
      requires Rooted() && Stores(ys) && cap > 0 && at == |Flat(ys)| && at + |x| <= Span(cap, layout.size)
      modifies set block | block in arena.blocks :: block.data
      ensures Rooted() && View() == old(View()) && Stores(ys + [x])
      ensures Kept(old(Memory()), Memory(), Others(View()))
    {
      WriteAt(at, x);
      ghost var data := arena.blocks[blk].data;
      StoredPush(old(data[..]), data[..], off, Flat(ys), x);
      FlatPush(ys, x);
    }

    /** Writes element `i`, just after the elements `ys` already stored. */
    method WriteItem(i: nat, x: Item, ghost ys: seq<Item>)
      requires Rooted() && Stores(ys) && i == |ys| < cap && Sized(ys, layout.size) && |x| == layout.size
      modifies set block | block in arena.blocks :: block.data
      ensures Rooted() && View() == old(View()) && Stores(ys + [x])
      ensures Kept(old(Memory()), Memory(), Others(View()))
    {
      FlatLength(ys, layout.size);
      SpanIsProduct(i, layout.size);
      SpanMonotone(i + 1, cap, layout.size);
      Append(i * layout.size, x, ys);
    }

    /** One write of a run of writes begun with memory `m`. */
    method WriteNext(i: nat, x: Item, ghost ys: seq<Item>, ghost m: seq<seq<byte>>, ghost rs: seq<Region>)
      requires Rooted() && Stores(ys) && i == |ys| < cap && Sized(ys, layout.size) && |x| == layout.size
      requires rs == Others(View()) && Kept(m, Memory(), rs)
      modifies set block | block in arena.blocks :: block.data
      ensures Rooted() && View() == old(View()) && Stores(ys + [x]) && Kept(m, Memory(), rs)
    {
      ghost var n := Memory();
      WriteItem(i, x, ys);
      KeptAfter(m, n, Memory(), rs, rs);
    }

    /** Writes elements behind the present ones, for which there is room. */
    method WriteAll(xs: seq<Item>)
      requires Valid() && len + |xs| <= cap && Sized(xs, layout.size)
      modifies set block | block in arena.blocks :: block.data
      ensures Rooted() && View() == old(View()) && Stores(items + xs)
      ensures Kept(old(Memory()), Memory(), Others(View()))
    {
      ItemsSized();
      ghost var rs, stored, m := Others(View()), items, Memory();
      for i := 0 to |xs|
        invariant Rooted() && stored == items + xs[..i] && Stores(stored) && Kept(m, Memory(), rs)
      {
        SizedSlice(items, xs, i, layout.size);
        WriteNext(len + i, xs[i], stored, m, rs);
        stored := stored + [xs[i]];
      }
      SizedSlice(items, xs, |xs|, layout.size);
    }

    method WriteItems(xs: seq<Item>)
      requires Valid() && len + |xs| <= cap && Sized(xs, layout.size)
      modifies `len, `items, set block | block in arena.blocks :: block.data
      ensures Valid() && View() == old(View()).(items := old(items) + xs)
      ensures Kept(old(Memory()), Memory(), Others(View()))
    {
      ghost var rs := Others(View());
      WriteAll(xs);
      ghost var grown := Memory();
      Lengthen(xs, items + xs);
      assert Others(View()) == rs && Memory() == grown;
    }

    /** The stored elements become the vector's. */
    method Lengthen(xs: seq<Item>, ghost stored: seq<Item>)
      requires Rooted() && Stores(stored) && stored == items + xs && len + |xs| <= cap && Sized(xs, layout.size)
      modifies `len, `items
      ensures Valid() && View() == old(View()).(items := old(items) + xs)
    {
      RootedMeans();
      len, items := len + |xs|, stored;
      RootedMeans();
    }

    /** The work of a lengthening `op`, begun at `v` with memory `m`. */
    method AddItems(xs: seq<Item>, ghost v: Vec, ghost op: VecOp, ghost os: Option<nat>, ghost m: seq<seq<byte>>)
      requires Valid() && Prepared(v, layout, op, os, View(), Done) && Kept(m, Memory(), Others(v))
      requires Lengthens(items, op) && xs == Inserted(items, op)
      modifies `len, `items, set block | block in arena.blocks :: block.data
      ensures Valid() && (View(), Done) == Step(v, layout, op, os)
      ensures Kept(m, Memory(), Others(v))
    {
      LengtheningAdds(View(), layout, op);
      AppendItems(xs, Others(v), m);
    }

    /** Appends elements, in a run of writes begun with memory `m`. */
    method AppendItems(xs: seq<Item>, ghost rs: seq<Region>, ghost m: seq<seq<byte>>)
      requires Valid() && Kept(m, Memory(), rs) && rs <= Others(View())
      requires Sized(xs, layout.size) && len + |xs| <= cap
      modifies `len, `items, set block | block in arena.blocks :: block.data
      ensures Valid() && View() == old(View()).(items := old(items) + xs)
      ensures Kept(m, Memory(), rs)
    {
      ghost var grown := Memory();
      WriteItems(xs);
      KeptAfter(m, grown, Memory(), rs, Others(View()));
    }

    // ----- operations ----------------------------------------------------------------------------

    /** `push` and `try_push`. */
    method Push(x: Item, fallible: bool, os: Option<nat>) returns (a: Answer)
      requires Valid() && Enabled(View(), layout, VecOp.Push(x, fallible), os)
      modifies this, arena, arena.blocks, set block | block in arena.blocks :: block.data
      ensures Valid() && arena.Extended(old(arena.blocks))
      ensures Shape(old(arena.model)) && (View(), a) == Step(old(View()), layout, VecOp.Push(x, fallible), os)
      ensures Kept(old(Memory()), Memory(), old(Others(View())))
    {
      RootedMeans();
      SoundShape(View(), layout);
      ghost var v, m, op := View(), Memory(), VecOp.Push(x, fallible);
      a := Done;
      if len == cap {
        a := Grow(fallible, os, op);
        if a != Done {
          return;
        }
      }
      AddItems([x], v, op, os, m);
    }

    /** `pop`. */
    method Pop() returns (r: Option<Item>)
      requires Valid()
      modifies this
      ensures Valid() && (View(), Popped(r)) == Effect(old(View()), layout, VecOp.Pop)
    {
      RootedMeans();
      if len == 0 {
        return None;
      }
      var x := Read(len - 1);
      SetLen(len - 1);
      r := Some(x);
    }

    /** Makes room for `n` elements and adds `xs`, the elements that `op` inserts. */
    method AddGrowing(n: nat, xs: seq<Item>, os: Option<nat>, ghost op: VecOp) returns (a: Answer)
      requires Valid() && Enabled(View(), layout, op, os) && !IsFallible(op)
      requires Lengthens(items, op) && xs == Inserted(items, op)
      requires NeedFor(View(), op) == if n > cap then More(n) else Enough
      modifies this, arena, arena.blocks, set block | block in arena.blocks :: block.data
      ensures Valid() && arena.Extended(old(arena.blocks))
      ensures Shape(old(arena.model)) && (View(), a) == Step(old(View()), layout, op, os)
      ensures Kept(old(Memory()), Memory(), old(Others(View())))
    {
      ghost var v, m := View(), Memory();
      a := EnsureRoom(n, false, os, op);
      if a == Done {
        AddItems(xs, v, op, os, m);
      }
    }

    /** `extend_exact` and `extend_from_slice`. */
    method Extend(xs: seq<Item>, os: Option<nat>) returns (a: Answer)
      requires Valid() && Enabled(View(), layout, VecOp.Extend(xs), os)
      modifies this, arena, arena.blocks, set block | block in arena.blocks :: block.data
      ensures Valid() && arena.Extended(old(arena.blocks))
      ensures Shape(old(arena.model)) && (View(), a) == Step(old(View()), layout, VecOp.Extend(xs), os)
      ensures Kept(old(Memory()), Memory(), old(Others(View())))
    {
      RootedMeans();
      SoundShape(View(), layout);
      if |xs| == 0 {
        assert items + xs == items;
        return Done;
      }
      if len + |xs| > USIZE_MAX {
        return Panic;
      }
      a := AddGrowing(len + |xs|, xs, os, VecOp.Extend(xs));
    }

    /** `reserve`, `reserve_exact`, `try_reserve` and `try_reserve_exact`. */
    method Reserve(additional: nat, exact: bool, fallible: bool, os: Option<nat>) returns (a: Answer)
      requires Valid() && Enabled(View(), layout, VecOp.Reserve(additional, exact, fallible), os)
      modifies this, arena, arena.blocks, set block | block in arena.blocks :: block.data
      ensures Valid() && arena.Extended(old(arena.blocks))
      ensures Shape(old(arena.model))
      ensures (View(), a) == Step(old(View()), layout, VecOp.Reserve(additional, exact, fallible), os)
      ensures Kept(old(Memory()), Memory(), old(Others(View())))
    {
      RootedMeans();
      SoundShape(View(), layout);
      if exact && len + additional > USIZE_MAX {
        return Declined(fallible, CapacityOverflow);
      }
      var required := Min(len + additional, USIZE_MAX);
      a := EnsureRoom(required, fallible, os, VecOp.Reserve(additional, exact, fallible));
    }

    /** Runs the destructors of the elements from `n` on, front to back. */
    method DropFrom(n: nat)
      requires Valid() && n <= len
      modifies `dropLog
      ensures Valid() && View() == old(View()).(dropped := old(dropLog) + if layout.needsDrop then items[n..] else [])
    {
      ItemsSized();
      assert items[n..len] == items[n..] && dropLog + [] == dropLog;
      if layout.needsDrop {
        for i := n to len
          invariant Valid() && View() == old(View()).(dropped := old(dropLog) + items[n..i])
        {
          DropNext(n, i, old(dropLog));
        }
      }
    }

    /** One step of a drop loop begun at element `n` with the log `log`. */
    method DropNext(ghost n: nat, i: nat, ghost log: seq<Item>)
      requires Valid() && n <= i < len && dropLog == log + items[n..i]
      modifies `dropLog
      ensures Valid() && View() == old(View()).(dropped := log + items[n..i + 1])
    {
      ItemsSized();
      var x := Read(i);
      LogDrop(x);
      assert items[n..i + 1] == items[n..i] + [items[i]];
    }

    /** Forgets the elements from `n` on. */
    method SetLen(n: nat)
      requires Valid() && n <= len
      modifies `len, `items
      ensures Valid() && View() == old(View()).(items := old(items)[..n])
    {
      ItemsSized();
      RootedMeans();
      if cap > 0 {
        StoredPrefix(arena.blocks[blk].data, off, items, layout.size, n);
      }
      len, items := n, items[..n];
      RootedMeans();
    }

    /** `truncate`. */
    method Truncate(n: nat)
      requires Valid()
      modifies this
      ensures Valid() && (View(), Done) == Effect(old(View()), layout, VecOp.Truncate(n))
    {
      ItemsSized();
      if n < len {
        DropFrom(n);
        SetLen(n);
      }
    }

    /** `clear`. */
    method Clear()
      requires Valid()
      modifies this
      ensures Valid() && (View(), Done) == Effect(old(View()), layout, VecOp.Clear)
    {
      ItemsSized();
      ghost var was, log := items, dropLog;
      DropFrom(0);
      SetLen(0);
      assert was[..0] == [] && was[0..] == was && (was == [] ==> log + was == log);
    }

    /** `resize`. */
    method Resize(n: nat, x: Item, os: Option<nat>) returns (a: Answer)
      requires Valid() && Enabled(View(), layout, VecOp.Resize(n, x), os)
      modifies this, arena, arena.blocks, set block | block in arena.blocks :: block.data
      ensures Valid() && arena.Extended(old(arena.blocks))
      ensures Shape(old(arena.model)) && (View(), a) == Step(old(View()), layout, VecOp.Resize(n, x), os)
      ensures Kept(old(Memory()), Memory(), old(Others(View())))
    {
      RootedMeans();
      SoundShape(View(), layout);
      if n > len {
        a := AddGrowing(n, Copies(x, n - len), os, VecOp.Resize(n, x));
      } else {
        Truncate(n);
        a := Done;
      }
    }

    /** Indexing: `None` is the out-of-bounds panic. */
    method Get(i: nat) returns (x: Option<Item>)
      requires Valid()
      ensures x == if i < |items| then Some(items[i]) else None
    {
      ItemsSized();
      if i >= len {
        return None;
      }
      var y := Read(i);
      x := Some(y);
    }

    /** Indexed assignment, which drops the overwritten element; an index past the end panics. */
    method Put(i: nat, x: Item) returns (a: Answer)
      requires Valid() && |x| == layout.size
      modifies `items, `dropLog, set block | block in arena.blocks :: block.data
      ensures Valid() && (View(), a) == Effect(old(View()), layout, VecOp.Put(i, x))
      ensures Kept(old(Memory()), Memory(), Others(View()))
    {
      ItemsSized();
      if i >= len {
        return Panic;
      }
      Exchange(i, x);
      a := Done;
    }

    /** Drops element `i` and puts `x` in its place. */
    method Exchange(i: nat, x: Item)
      requires Valid() && i < |items| && |x| == layout.size
      modifies `items, `dropLog, set block | block in arena.blocks :: block.data
      ensures Valid() && View() == Assign(old(View()), layout, i, x)
      ensures Kept(old(Memory()), Memory(), Others(View()))
    {
      ghost var m := Memory();
      DropAt(i);
      assert m == Memory();
      Replace(i, x);
    }

    /** Replaces element `i` without running a destructor. */
    method Replace(i: nat, x: Item)
      requires Valid() && i < |items| && |x| == layout.size
      modifies `items, set block | block in arena.blocks :: block.data
      ensures Valid() && View() == old(View()).(items := old(items)[i := x])
      ensures Kept(old(Memory()), Memory(), Others(View()))
    {
      ItemsSized();
      Overwrite(i, x);
      ghost var n, rs := Memory(), Others(View());
      SetItem(i, x);
      assert n == Memory() && rs == Others(View());
    }

    /** Runs the destructor of element `i`. */
    method DropAt(i: nat)
      requires Valid() && i < |items|
      modifies `dropLog
      ensures Valid() && View() == old(View()).(dropped := old(dropLog) + if layout.needsDrop then [items[i]] else [])
    {
      assert dropLog + [] == dropLog;
      if layout.needsDrop {
        var x := Read(i);
        LogDrop(x);
      }
    }

    /** One destructor call. */
    method LogDrop(x: Item)
      requires Valid()
      modifies `dropLog
      ensures Valid() && View() == old(View()).(dropped := old(dropLog) + [x])
    {
      RootedMeans();
      dropLog := dropLog + [x];
      RootedMeans();
    }

    /** Replaces the bytes of element `i`. */
    method Overwrite(i: nat, x: Item)
      requires Valid() && i < len && |x| == layout.size
      modifies set block | block in arena.blocks :: block.data
      ensures Rooted() && View() == old(View()) && Stores(items[i := x])
      ensures Kept(old(Memory()), Memory(), Others(View()))
    {
      ItemsSized();
      SpanIsProduct(i, layout.size);
      SpanMonotone(i + 1, cap, layout.size);
      OverwriteAt(i * layout.size, x, i);
    }

    method OverwriteAt(at: nat, x: Item, ghost i: nat)
      requires Valid() && cap > 0 && Sized(items, |x|) && i < |items| && |x| == layout.size
      requires at == Span(i, layout.size) && at + |x| <= Span(cap, layout.size)
      modifies set block | block in arena.blocks :: block.data
      ensures Rooted() && View() == old(View()) && Stores(items[i := x])
      ensures Kept(old(Memory()), Memory(), Others(View()))
    {
      ghost var before := arena.blocks[blk].data[..];
      WriteAt(at, x);
      WroteElement(before, at, x, i);
    }

    /** Element `i`, `at` bytes into the region, was overwritten in memory that held `before`. */
    lemma WroteElement(before: seq<byte>, at: nat, x: Item, i: nat)
      requires Sized(items, |x|) && i < |items| && at == Span(i, |x|) && blk < |arena.blocks|
      requires |before| == arena.blocks[blk].data.Length && off + |Flat(items)| <= |before|
      requires before[off..off + |Flat(items)|] == Flat(items) && off + at + |x| <= |before|
      requires arena.blocks[blk].data[off + at..off + at + |x|] == x
      requires forall o :: 0 <= o < |before| && !(off + at <= o < off + at + |x|) ==>
                 arena.blocks[blk].data[o] == before[o]
      ensures Stores(items[i := x])
    {
      StoredUpdate(before, arena.blocks[blk].data[..], off, items, i, at, x);
    }

    ghost method SetItem(i: nat, x: Item)
      requires Rooted() && i < |items| && Stores(items[i := x]) && |x| == layout.size
      modifies `items
      ensures Valid() && View() == old(View()).(items := old(items)[i := x])
    {
      RootedMeans();
      items := items[i := x];
      RootedMeans();
    }

    // ----- the end of a vector -------------------------------------------------------------------

    /**
     `finish`: hands out the elements' memory. Nothing is registered with the destructor log, so no
     later rewind or reset runs their destructors.
     */
    method Finish() returns (b: nat, o: nat, n: nat)
      requires Valid()
      ensures n == |items| && Sized(items, layout.size)
      ensures n > 0 ==>
                && b < |arena.blocks| && o + n * layout.size <= arena.blocks[b].data.Length
                && arena.blocks[b].data[o..o + n * layout.size] == Flat(items)
                && arena.model.live != []
                && var r := arena.model.live[|arena.model.live| - 1];
                   r.blk == b && r.off == o && n * layout.size <= r.size && r.slot.None?
    {
      ItemsSized();
      RootedMeans();
      FlatLength(items, layout.size);
      SpanIsProduct(len, layout.size);
      SpanMonotone(len, cap, layout.size);
      b, o, n := blk, off, len;
    }

    /** `Drop`: runs every element's destructor, front to back; the memory stays with the arena. */
    method DropVec()
      requires Valid()
      modifies `dropLog
      ensures Valid() && View() == old(View()).(dropped := old(dropLog) + if layout.needsDrop then items else [])
    {
      ItemsSized();
      DropFrom(0);
      assert items[0..] == items;
    }

    // ----- runs of operations --------------------------------------------------------------------

    method Perform(op: VecOp, os: Option<nat>) returns (a: Answer)
      requires Valid() && Enabled(View(), layout, op, os)
      modifies this, arena, arena.blocks, set block | block in arena.blocks :: block.data
      ensures Valid() && arena.Extended(old(arena.blocks))
      ensures Shape(old(arena.model)) && (View(), a) == Step(old(View()), layout, op, os)
      ensures Kept(old(Memory()), Memory(), old(Others(View())))
    {
      match op {
        case Push(x, fallible) => a := Push(x, fallible, os);
        case Extend(xs) => a := Extend(xs, os);
        case Reserve(n, exact, fallible) => a := Reserve(n, exact, fallible, os);
        case Resize(n, x) => a := Resize(n, x, os);
        case _ => a := PerformLocal(op, os);
      }
    }

    /** The operations that never grow. */
    method PerformLocal(op: VecOp, ghost os: Option<nat>) returns (a: Answer)
      requires Valid() && Enabled(View(), layout, op, os) && (op.Pop? || op.Truncate? || op.Clear? || op.Put?)
      modifies this, set block | block in arena.blocks :: block.data
      ensures Valid() && arena.Extended(old(arena.blocks))
      ensures Shape(old(arena.model)) && (View(), a) == Step(old(View()), layout, op, os)
      ensures Kept(old(Memory()), Memory(), old(Others(View())))
    {
      RootedMeans();
      SoundShape(View(), layout);
      ghost var rs := Others(View());
      if op.Put? {
        a := Put(op.i, op.x);
      } else {
        a := PerformHere(op);
      }
      assert Others(View()) == rs;
    }

    /** The operations that never write. */
    method PerformHere(op: VecOp) returns (a: Answer)
      requires Valid() && (op.Pop? || op.Truncate? || op.Clear?)
      modifies this
      ensures Valid() && (View(), a) == Effect(old(View()), layout, op) && Memory() == old(Memory())
    {
      a := Done;
      match op {
        case Pop =>
          var r := Pop();
          a := Popped(r);
        case Truncate(n) => Truncate(n);
        case Clear => Clear();
      }
    }

    /** Performs operations until one panics. */
    method RunEvents(events: seq<Event>) returns (answers: seq<Answer>)
      requires Valid() && AllEnabled(View(), layout, events)
      modifies this, arena, arena.blocks, set block | block in arena.blocks :: block.data
      ensures Valid() && arena.Extended(old(arena.blocks))
      ensures Shape(old(arena.model)) && (View(), answers) == Run(old(View()), layout, events)
      ensures Kept(old(Memory()), Memory(), old(Others(View())))
    {
      RootedMeans();
      SoundShape(View(), layout);
      if |events| == 0 {
        return [];
      }
      ghost var v, m := View(), Memory();
      var a := Perform(events[0].op, events[0].os);
      RunFrom(v, layout, events, View(), a);
      answers := [a];
      if a != Panic {
        ghost var n, rs := Memory(), Others(View());
        var rest := RunEvents(events[1..]);
        KeptAfter(m, n, Memory(), Others(v), rs);
        answers := [a] + rest;
      }
    }
  }

  /** `ArenaVec::with_capacity`. */
  method WithCapacity(arena: Arena, layout: ElemLayout, n: nat, os: Option<nat>) returns (v: ArenaVec, a: Answer)
    requires arena.Valid() && MayGrow(Vec(arena.model, [], 0, [], 0), layout, n, os)
    modifies arena, arena.blocks, set block | block in arena.blocks :: block.data
    ensures fresh(v) && v.arena == arena && v.Valid() && v.items == [] && arena.Extended(old(arena.blocks))
    ensures Shape(old(arena.model))
    ensures (v.View(), a) == if n == 0 then (Vec(old(arena.model), [], 0, [], 0), Done)
                             else VecModel.GrowTo(Vec(old(arena.model), [], 0, [], 0), layout, n, false, os)
    ensures Kept(old(MemoryOf(arena.blocks)), v.Memory(), old(arena.model.live))
  {
    arena.ValidMeans();
    arena.FieldsAgree();
    v := new ArenaVec(arena, layout);
    a := Done;
    if n > 0 {
      v.RootedMeans();
      GrowToKeeps(v.View(), layout, n, false, os);
      a := v.GrowTo(n, false, os);
    }
  }

  /** `ArenaVecIntoIter`: yields front to back and drops what is left over front to back. */
  class ArenaVecIntoIter {
    const inner: ArenaVec
    var start: nat

    ghost predicate Valid()
      reads this, inner, inner.arena, inner.arena.blocks, inner.arena.dropRegistry, inner.arena.dropRegistry.Repr
      reads set b | b in inner.arena.blocks :: b.data
    {
      inner.Valid() && start <= inner.len && this !in inner.arena.dropRegistry.Repr
    }

    ghost function Remaining(): seq<Item>
      requires Valid()
      reads this, inner, inner.arena, inner.arena.blocks, inner.arena.dropRegistry, inner.arena.dropRegistry.Repr
      reads set b | b in inner.arena.blocks :: b.data
    {
      inner.items[start..]
    }

    constructor (v: ArenaVec)
      requires v.Valid()
      ensures Valid() && inner == v && Remaining() == v.items
    {
      inner := v;
      start := 0;
      new;
      v.RootedMeans();
    }

    method Next() returns (x: Option<Item>)
      requires Valid()
      modifies this
      ensures Valid()
      ensures old(Remaining()) == [] ==> x == None && Remaining() == []
      ensures old(Remaining()) != [] ==> x == Some(old(Remaining())[0]) && Remaining() == old(Remaining())[1..]
    {
      if start >= inner.len {
        return None;
      }
      var y := inner.Read(start);
      start := start + 1;
      x := Some(y);
    }

    /** `size_hint`, which is exact. */
    method SizeHint() returns (n: nat)
      requires Valid()
      ensures n == |Remaining()|
    {
      n := inner.len - start;
    }

    /** `Drop`: the documentation says newest first, the loop runs front to back. */
    method DropRest()
      requires Valid()
      modifies inner
      ensures inner.Valid() && inner.items == []
      ensures inner.dropLog == old(inner.dropLog) + if inner.layout.needsDrop then old(Remaining()) else []
    {
      inner.DropFrom(start);
      inner.SetLen(0);
    }
  }
}

/**
 What the reported byte counter means. It is not the number of bytes in use: entering a block
 other than the current one counts the entering allocation twice. The exact law is part of the
 invariant (`AccountOk`); this module derives its bounds and what callers may rely on.
 */
module Accounting {
  import opened Bits
  import opened Wrappers
  import opened ArenaModel
  import opened ArenaInvariants

  lemma {:induction false} SumOffsetsMonotone(blocks: seq<Blk>, i: nat, k: nat)
    requires i <= k <= |blocks|
    ensures SumOffsets(blocks, i) <= SumOffsets(blocks, k)
    decreases k
  {
    if i < k {
      SumOffsetsMonotone(blocks, i, k - 1);
    }
  }

  /** The first `n` live regions fit, without overlap, in the space up to the end of the last of them. */
  lemma {:induction false} PayloadPrefix(s: State, n: nat)
    requires CursorOk(s) && LiveOk(s) && 0 < n <= |s.live|
    ensures var r := s.live[n - 1];
            r.blk < |s.blocks| && Payload(s.live[..n]) <= SumOffsets(s.blocks, r.blk) + r.off + r.size
  {
    var r := s.live[n - 1];
    assert InBlock(s, r);
    assert s.live[..n] == s.live[..n - 1] + [r];
    LivePush(s.live[..n - 1], r);
    if n > 1 {
      var p := s.live[n - 2];
      PayloadPrefix(s, n - 1);
      assert Ordered(s.live, n - 2, n - 1) && InBlock(s, p);
      if p.blk < r.blk {
        SumOffsetsMonotone(s.blocks, p.blk + 1, r.blk);
      }
    }
  }

  /** Live payload never exceeds the bytes in use: the rest is padding. */
  lemma PayloadIsInUse(s: State)
    requires CursorOk(s) && LiveOk(s)
    ensures Payload(s.live) <= InUse(s)
  {
    if s.live != [] {
      PayloadPrefix(s, |s.live|);
      assert s.live[..|s.live|] == s.live;
    }
  }

  lemma {:induction false} EnteringIsPayload(s: State, n: nat)
    requires LiveOk(s) && n <= |s.live|
    ensures Entering(s.live[..n]) <= Payload(s.live[..n])
  {
    if n > 0 {
      EnteringIsPayload(s, n - 1);
      assert s.live[..n] == s.live[..n - 1] + [s.live[n - 1]];
      LivePush(s.live[..n - 1], s.live[n - 1]);
      assert InBlock(s, s.live[n - 1]);
    }
  }

  /** While no request has been refused, the report lies between the bytes in use and twice that. */
  lemma ReportedBounds(s: State)
    requires Inv(s)
    ensures InUse(s) <= Reported(s) - s.recounted <= 2 * InUse(s)
    ensures s.recounted == 0 ==> InUse(s) <= Reported(s) <= 2 * InUse(s)
  {
    PayloadIsInUse(s);
    EnteringIsPayload(s, |s.live|);
    assert s.live[..|s.live|] == s.live;
  }

  lemma {:induction false} InUseIsReserved(blocks: seq<Blk>, k: nat)
    requires k <= |blocks| && forall j :: 0 <= j < k ==> blocks[j].offset <= blocks[j].capacity
    ensures SumOffsets(blocks, k) <= TotalCapacity(blocks[..k])
  {
    if k > 0 {
      InUseIsReserved(blocks, k - 1);
      assert blocks[..k][..k - 1] == blocks[..k - 1];
    }
  }

  lemma {:induction false} TotalCapacityMonotone(blocks: seq<Blk>, k: nat)
    requires k <= |blocks|
    ensures TotalCapacity(blocks[..k]) <= TotalCapacity(blocks)
    decreases |blocks|
  {
    if k < |blocks| {
      TotalCapacityMonotone(blocks[..|blocks| - 1], k);
      assert blocks[..|blocks| - 1][..k] == blocks[..k];
    } else {
      assert blocks[..k] == blocks;
    }
  }

  // ----- reserved bytes and the address space ----------------------------------------------------

  function Without(blocks: seq<Blk>, k: nat): (r: seq<Blk>)
    requires k < |blocks|
    ensures |r| == |blocks| - 1
    ensures forall i :: 0 <= i < |r| ==> r[i] == blocks[if i < k then i else i + 1]
  {
    blocks[..k] + blocks[k + 1..]
  }

  lemma {:induction false} TotalCapacityWithout(blocks: seq<Blk>, k: nat)
    requires k < |blocks|
    ensures TotalCapacity(blocks) == TotalCapacity(Without(blocks, k)) + blocks[k].capacity
    decreases |blocks|
  {
    var n := |blocks| - 1;
    if k < n {
      TotalCapacityWithout(blocks[..n], k);
      assert Without(blocks, k)[..n - 1] == Without(blocks[..n], k);
    } else {
      assert Without(blocks, k) == blocks[..n];
    }
  }

  lemma {:induction false} HighestBlock(blocks: seq<Blk>) returns (k: nat)
    requires |blocks| > 0
    ensures k < |blocks| && forall i :: 0 <= i < |blocks| ==> blocks[i].base <= blocks[k].base
  {
    k := 0;
    if |blocks| > 1 {
      var n := |blocks| - 1;
      var j := HighestBlock(blocks[..n]);
      k := if blocks[n].base > blocks[j].base then n else j;
    }
  }

  /** Blocks that share no address fit side by side below the address where all of them end. */
  lemma {:induction false} TotalWithin(blocks: seq<Blk>, top: nat)
    requires forall i :: 0 <= i < |blocks| ==> blocks[i].capacity > 0 && blocks[i].base + blocks[i].capacity <= top
    requires forall i, j :: 0 <= i < j < |blocks| ==> Apart(blocks, i, j)
    ensures TotalCapacity(blocks) <= top
    decreases |blocks|
  {
    if |blocks| > 0 {
      var k := HighestBlock(blocks);
      var rest := Without(blocks, k);
      forall i | 0 <= i < |rest| ensures rest[i].capacity > 0 && rest[i].base + rest[i].capacity <= blocks[k].base {
        var j := if i < k then i else i + 1;
        assert if j < k then Apart(blocks, j, k) else Apart(blocks, k, j);
      }
      forall i, j | 0 <= i < j < |rest| ensures Apart(rest, i, j) {
        assert Apart(blocks, if i < k then i else i + 1, if j < k then j else j + 1);
      }
      TotalWithin(rest, blocks[k].base);
      TotalCapacityWithout(blocks, k);
    }
  }

  /** The reserved-bytes counter of any reachable arena is a machine word: it never overflows. */
  lemma ReservedIsWord(s: State)
    requires Inv(s)
    ensures s.bytesReserved <= USIZE_MAX
  {
    assert forall i :: 0 <= i < |s.blocks| ==> BlkOk(s.blocks[i]);
    TotalWithin(s.blocks, USIZE_MAX);
  }

  /** The bytes in use never exceed the bytes reserved. */
  lemma InUseWithinReserved(s: State)
    requires Inv(s)
    ensures InUse(s) <= s.bytesReserved
  {
    assert forall j :: 0 <= j < |s.blocks| ==> BlkOk(s.blocks[j]);
    InUseIsReserved(s.blocks, s.current);
    assert s.blocks[..s.current + 1][..s.current] == s.blocks[..s.current];
    TotalCapacityMonotone(s.blocks, s.current + 1);
  }

  /** What a granted request adds to the report: padding and size, or twice the size elsewhere. */
  function Cost(s: State, size: nat, align: nat): nat
    requires Shape(s) && align > 0
  {
    if Target(s, size, align) == s.current && StartIn(s, size, align) + size >= s.used
    then StartIn(s, size, align) + size - s.used else 2 * size
  }

  /** What a request adds to the report: a refused one counts the current block again. */
  function Charge(s: State, size: nat, align: nat, fallible: bool, os: Option<nat>): nat
    requires Shape(s) && align > 0
  {
    if Grants(s, size, align, fallible, os) then Cost(s, size, align)
    else if TurnedAway(s, size, align, fallible) then 0
    else s.used
  }

  /** Bytes a request adds to the reserve: the block it opens, if it is granted one. */
  function Opened(s: State, size: nat, align: nat, fallible: bool, os: Option<nat>): nat
    requires Shape(s) && align > 0
  {
    var want := NextBlockFor(s.nextSize, size, align);
    if Grants(s, size, align, fallible, os) && Target(s, size, align) == |s.blocks| && want.Some? then want.value.0 else 0
  }

  /** Both counters after any request, from what is known before it. */
  lemma RequestCounts(s: State, size: nat, align: nat, fallible: bool, os: Option<nat>)
    requires Wellformed(s) && Shape(s) && size > 0 && ValidAlign(align) && OsOk(s, size, align, os)
    ensures var (t, out) := Alloc(s, size, align, fallible, os);
            && Reported(t) == Reported(s) + Charge(s, size, align, fallible, os)
            && t.bytesReserved == s.bytesReserved + Opened(s, size, align, fallible, os)
  {
    WellformedMeans(s);
    AllocMeaning(s, size, align, fallible, os);
    var (t, out) := Alloc(s, size, align, fallible, os);
    if out.Placed? {
      GrantCounts(s, t, out, size, align);
      GrantCost(s, t, out, size, align, fallible, os);
    }
  }

  lemma GrantCost(s: State, t: State, out: Outcome, size: nat, align: nat, fallible: bool, os: Option<nat>)
    requires CursorOk(s) && align > 0 && Grants(s, size, align, fallible, os)
    requires Allocated(s, t, out, size, align) && GrowthStep(s, t, out, size, align)
    requires out.Placed? && out == Placed(Target(s, size, align), StartIn(s, size, align))
    ensures out.blk == s.current ==> InUse(t) - InUse(s) == Cost(s, size, align)
    ensures t.bytesReserved == s.bytesReserved + Opened(s, size, align, fallible, os)
  {}

  /**
   When "reserved is always at least allocated" holds after a request, granted or refused: if and
   only if the report before it, plus what the request costs, is within the reserve plus the block
   it opens.
   */
  lemma ReportedWithinReserved(s: State, size: nat, align: nat, fallible: bool, os: Option<nat>)
    requires Wellformed(s) && Shape(s) && size > 0 && ValidAlign(align) && OsOk(s, size, align, os)
    ensures var (t, out) := Alloc(s, size, align, fallible, os);
            Reported(t) <= t.bytesReserved <==>
              (Reported(s) + Charge(s, size, align, fallible, os)
               <= s.bytesReserved + Opened(s, size, align, fallible, os))
  {
    RequestCounts(s, size, align, fallible, os);
  }

  /** The claim in terms of the accounting law, and in an arena that never left block 0 nor refused. */
  lemma ReserveLaw(s: State)
    requires Inv(s)
    ensures s.current == 0 && s.recounted == 0 ==> Reported(s) <= s.bytesReserved
    ensures Reported(s) <= s.bytesReserved <==> Entering(s.live) + s.recounted <= s.bytesReserved - InUse(s)
  {
    InUseWithinReserved(s);
    if s.current == 0 {
      NothingEntered(s, |s.live|);
      assert s.live[..|s.live|] == s.live;
    }
  }

  lemma {:induction false} NothingEntered(s: State, n: nat)
    requires LiveOk(s) && s.current == 0 && n <= |s.live|
    ensures Entering(s.live[..n]) == 0
  {
    if n > 0 {
      NothingEntered(s, n - 1);
      assert s.live[..n] == s.live[..n - 1] + [s.live[n - 1]];
      LivePush(s.live[..n - 1], s.live[n - 1]);
      assert InBlock(s, s.live[n - 1]);
    }
  }

  /** A granted request adds its bytes and padding once in the current block, and twice elsewhere. */
  lemma GrantCounts(s: State, t: State, out: Outcome, size: nat, align: nat)
    requires Inv(s) && out.Placed? && Allocated(s, t, out, size, align)
    ensures out.blk == s.current ==> Reported(t) - Reported(s) == InUse(t) - InUse(s)
    ensures out.blk != s.current ==> Reported(t) - Reported(s) == 2 * size && InUse(t) - InUse(s) == size
  {
    if out.blk != s.current {
      if out.blk < |s.blocks| {
        SwitchedAccounts(s, t, out.blk, size, align);
      } else {
        OpenedKeepsInv(s, t, size, align);
      }
    }
  }

  /** The first 64 bytes fill block 0; the next 128 open a block and are reported as 256. */
  lemma ReservedCanBeLess(base0: nat, base1: nat, s: State)
    requires FreshBlock([], base0, 64, 64) && s == Alloc(WithCapacity(64, base0), 64, 1, false, None).0
    requires FreshBlock([Blk(base0, 64, 64, 0)], base1, 128, 64)
    ensures Shape(s) && Reported(s) == 64 == s.bytesReserved
    ensures var t := Alloc(s, 128, 1, false, Some(base1)).0; Reported(t) == 320 && t.bytesReserved == 192
  {
    FirstRequest(base0);
    SecondRequest(s, base1);
  }

  lemma FirstRequest(base0: nat)
    requires FreshBlock([], base0, 64, 64)
    ensures var s := Alloc(WithCapacity(64, base0), 64, 1, false, None).0;
            && Inv(s) && s.blocks == [Blk(base0, 64, 64, 0)] && s.used == 64 && s.bytesReserved == 64 == Reported(s)
            && s.nextSize == 128 && InUse(s) == 64
  {
    var s0 := WithCapacity(64, base0);
    WithCapacityInv(64, base0);
    ByteBump(s0);
    AllocMeaning(s0, 64, 1, false, None);
    AllocatedKeepsInv(s0, Alloc(s0, 64, 1, false, None).0, Placed(0, 0), 64, 1);
  }

  lemma SecondRequest(s: State, base1: nat)
    requires Inv(s) && s.blocks == [Blk(s.blocks[0].base, 64, 64, 0)] && s.used == 64
    requires s.nextSize == 128 && FreshBlock(s.blocks, base1, 128, 64)
    ensures var t := Alloc(s, 128, 1, false, Some(base1)).0;
            Reported(t) == Reported(s) + 256 && t.bytesReserved == s.bytesReserved + 128
  {
    NextBlockFor128();
    ByteBump(s);
    WellformedMeans(s);
    RequestCounts(s, 128, 1, false, Some(base1));
  }

  /** With alignment 1 the cursor needs no rounding: the string fast path is the general one. */
  lemma ByteBump(s: State)
    requires Shape(s)
    ensures BumpAddress(s, 1) == s.blocks[s.current].base + s.used
  {}

  lemma NextBlockFor128()
    ensures NextBlockFor(128, 128, 1) == Some((128, 192))
  {
    assert IsPow2(16) && IsPow2(128);
    NextPow2Least(128, 128);
  }
}

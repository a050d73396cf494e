/**
 The destructor log of src/util/drop_registry.rs.

 A slot stands for one registered allocation; its pointer is replaced by the allocation's
 serial number `id`, which stays unique when an address is reused. Which destructors panic is
 the caller's choice: `bad` is the set of elements whose destructor panics.
 */
module Drops {
  import opened InlineVecs

  datatype DropSlot = Single(id: nat) | Range(id: nat, count: nat)
  datatype Elem = Elem(id: nat, index: nat)

  /** One shim invocation: the destructors of elements `0..reached` of `slot` were called. */
  datatype Run = Run(slot: DropSlot, reached: nat)

  function Count(slot: DropSlot): nat {
    match slot
    case Single(_) => 1
    case Range(_, n) => n
  }

  /** A panic stops the shim's loop at the panicking element; `i` elements are already done. */
  function Reached(slot: DropSlot, bad: set<Elem>, i: nat): (n: nat)
    requires i <= Count(slot)
    ensures i <= n <= Count(slot)
    ensures forall j :: i <= j < n - 1 ==> Elem(slot.id, j) !in bad
    ensures n < Count(slot) ==> n > i && Elem(slot.id, n - 1) in bad
    decreases Count(slot) - i
  {
    if i == Count(slot) then i
    else if Elem(slot.id, i) in bad then i + 1
    else Reached(slot, bad, i + 1)
  }

  function RunOf(slot: DropSlot, bad: set<Elem>): Run {
    Run(slot, Reached(slot, bad, 0))
  }

  predicate SlotPanics(slot: DropSlot, bad: set<Elem>) {
    exists i :: 0 <= i < Count(slot) && Elem(slot.id, i) in bad
  }

  /** Some slot among `slots[t..n]` panics. */
  predicate AnyPanics(slots: seq<DropSlot>, t: nat, n: nat, bad: set<Elem>)
    requires n <= |slots|
  {
    exists k :: t <= k < n && SlotPanics(slots[k], bad)
  }

  /** The invocations made by draining `slots[t..n]`, newest slot first. */
  function Drain(slots: seq<DropSlot>, t: nat, n: nat, bad: set<Elem>): (r: seq<Run>)
    requires n <= |slots|
    ensures |r| == if t < n then n - t else 0
  {
    if n <= t then [] else [RunOf(slots[n - 1], bad)] + Drain(slots, t, n - 1, bad)
  }

  lemma {:induction false} DrainSplits(slots: seq<DropSlot>, t: nat, m: nat, n: nat, bad: set<Elem>)
    requires t <= m <= n <= |slots|
    ensures Drain(slots, t, n, bad) == Drain(slots, m, n, bad) + Drain(slots, t, m, bad)
  {
    if m < n {
      DrainSplits(slots, t, m, n - 1, bad);
    }
  }

  lemma {:induction false} DrainAt(slots: seq<DropSlot>, t: nat, n: nat, bad: set<Elem>, k: nat)
    requires t <= k < n <= |slots|
    ensures Drain(slots, t, n, bad)[n - 1 - k] == RunOf(slots[k], bad)
  {
    if k < n - 1 {
      DrainAt(slots, t, n - 1, bad, k);
    }
  }

  /**
   Element-level exactness of a drain: position `n - 1 - k` of the log is the one invocation of
   slot `k`, and it calls the destructor of element `index` exactly when the slot has that element
   and no earlier element of the same slot panics. A panic in one slot never affects another.
   */
  lemma {:induction false} DrainReachesElement(slots: seq<DropSlot>, t: nat, n: nat, bad: set<Elem>, k: nat, index: nat)
    requires t <= k < n <= |slots|
    ensures var run := Drain(slots, t, n, bad)[n - 1 - k];
            && run.slot == slots[k]
            && (index < run.reached <==>
                  && index < (match slots[k] case Single(_) => 1 case Range(_, count) => count)
                  && forall j :: 0 <= j < index ==> Elem(slots[k].id, j) !in bad)
  {
    DrainAt(slots, t, n, bad, k);
    var reached := Reached(slots[k], bad, 0);
    if reached < Count(slots[k]) {
      assert Elem(slots[k].id, reached - 1) in bad;
    }
  }

  /** One of the destructors called by an invocation panics. */
  predicate CallPanics(run: Run, bad: set<Elem>) {
    exists i :: 0 <= i < run.reached && Elem(run.slot.id, i) in bad
  }

  predicate AnyCallPanics(runs: seq<Run>, bad: set<Elem>) {
    exists p :: 0 <= p < |runs| && CallPanics(runs[p], bad)
  }

  /** A drain is said to panic exactly when one of the destructors it calls does. */
  lemma {:induction false} DrainPanicsIff(slots: seq<DropSlot>, t: nat, n: nat, bad: set<Elem>)
    requires t <= n <= |slots|
    ensures AnyPanics(slots, t, n, bad) <==> AnyCallPanics(Drain(slots, t, n, bad), bad)
  {
    var runs := Drain(slots, t, n, bad);
    forall k | t <= k < n ensures SlotPanics(slots[k], bad) <==> CallPanics(runs[n - 1 - k], bad) {
      DrainAt(slots, t, n, bad, k);
      SlotPanicsIff(slots[k], bad);
    }
    if AnyPanics(slots, t, n, bad) {
      var k :| t <= k < n && SlotPanics(slots[k], bad);
      assert CallPanics(runs[n - 1 - k], bad);
    }
    if AnyCallPanics(runs, bad) {
      var p :| 0 <= p < |runs| && CallPanics(runs[p], bad);
      assert SlotPanics(slots[n - 1 - p], bad);
    }
  }

  lemma {:induction false} SlotPanicsIff(slot: DropSlot, bad: set<Elem>)
    ensures SlotPanics(slot, bad) <==> CallPanics(RunOf(slot, bad), bad)
  {
    var n := Reached(slot, bad, 0);
    if n < Count(slot) {
      assert Elem(slot.id, n - 1) in bad;
    }
  }

  /** Slots kept by `run_drops_until(target)` on a registry of length `len`. */
  function Cut(target: nat, len: nat): nat {
    if target < len then target else len
  }

  class DropRegistry {
    const slots: InlineVec<DropSlot>
    var ran: seq<Run>  // shim invocations so far, oldest first
    ghost var Repr: set<object>

    ghost predicate Valid()
      reads this, Repr
      ensures Valid() ==> this in Repr
    {
      && this in Repr && slots in Repr
      && slots.Repr <= Repr && this !in slots.Repr && Repr == {this} + slots.Repr
      && slots.Valid()
    }

    ghost function Slots(): seq<DropSlot>
      requires Valid()
      reads this, Repr
    {
      slots.Contents()
    }

    constructor ()
      ensures Valid() && fresh(Repr)
      ensures Slots() == [] && ran == []
    {
      slots := new InlineVec<DropSlot>(32);
      ran := [];
      new;
      Repr := {this} + slots.Repr;
    }

    method Len() returns (n: nat)
      requires Valid()
      ensures n == |Slots()|
    {
      n := slots.Len();
    }

    method Register(id: nat, needsDrop: bool)
      requires Valid()
      modifies Repr
      ensures Valid() && fresh(Repr - old(Repr))
      ensures Slots() == old(Slots()) + if needsDrop then [Single(id)] else []
      ensures ran == old(ran)
    {
      if needsDrop {
        slots.Push(Single(id));
        Repr := {this} + slots.Repr;
      }
    }

    method RegisterSlice(id: nat, count: nat, needsDrop: bool)
      requires Valid()
      modifies Repr
      ensures Valid() && fresh(Repr - old(Repr))
      ensures Slots() == old(Slots()) + if needsDrop && count > 0 then [Range(id, count)] else []
      ensures ran == old(ran)
    {
      if count == 0 {
        return;
      }
      if needsDrop {
        slots.Push(Range(id, count));
        Repr := {this} + slots.Repr;
      }
    }

    /** Runs one shim under `catch_unwind`; `ok` is false when it panicked. */
    method RunSlot(slot: DropSlot, bad: set<Elem>) returns (ok: bool)
      requires Valid()
      modifies `ran
      ensures Valid() && Slots() == old(Slots())
      ensures ran == old(ran) + [RunOf(slot, bad)]
      ensures ok == !SlotPanics(slot, bad)
    {
      ok := true;
      var i := 0;
      while i < Count(slot) && ok
        invariant 0 <= i <= Count(slot)
        invariant ok ==> Reached(slot, bad, 0) == Reached(slot, bad, i)
        invariant ok ==> forall j :: 0 <= j < i ==> Elem(slot.id, j) !in bad
        invariant !ok ==> Reached(slot, bad, 0) == i && SlotPanics(slot, bad)
      {
        ok := Elem(slot.id, i) !in bad;
        i := i + 1;
      }
      ran := ran + [Run(slot, i)];
    }

    /**
     Pops and runs the newest slot. The ghost arguments describe the drain of `s[target..]`,
     begun with log `before`, of which this is one step.
     */
    method PopAndRun(bad: set<Elem>, ghost s: seq<DropSlot>, ghost target: nat, ghost before: seq<Run>)
      returns (ok: bool)
      requires Valid() && Slots() <= s && target < |Slots()|
      requires ran + Drain(s, target, |Slots()|, bad) == before + Drain(s, target, |s|, bad)
      modifies Repr
      ensures Valid() && fresh(Repr - old(Repr))
      ensures Slots() == old(Slots())[..|old(Slots())| - 1] && Slots() <= s
      ensures ran + Drain(s, target, |Slots()|, bad) == before + Drain(s, target, |s|, bad)
      ensures ok == !SlotPanics(s[|Slots()|], bad)
    {
      ghost var n, r := |Slots()|, ran;
      var slot := PopSlot();
      assert slot == s[n - 1];
      ok := RunSlot(slot, bad);
      DrainStep(s, target, n, bad, r, ran);
    }

    method PopSlot() returns (slot: DropSlot)
      requires Valid() && Slots() != []
      modifies Repr
      ensures Valid() && fresh(Repr - old(Repr)) && ran == old(ran)
      ensures old(Slots()) == Slots() + [slot]
    {
      var popped := slots.Pop();
      Repr := {this} + slots.Repr;
      slot := popped.value;
    }

    /** Drains every remaining slot, ignoring further panics. */
    method DrainRemaining(target: nat, bad: set<Elem>, ghost s: seq<DropSlot>, ghost before: seq<Run>)
      requires Valid() && Slots() <= s && target <= |Slots()|
      requires ran + Drain(s, target, |Slots()|, bad) == before + Drain(s, target, |s|, bad)
      modifies Repr
      ensures Valid() && fresh(Repr - old(Repr))
      ensures Slots() == s[..target]
      ensures ran == before + Drain(s, target, |s|, bad)
    {
      var n := Len();
      while n > target
        invariant Valid() && fresh(Repr - old(Repr))
        invariant target <= n == |Slots()| && Slots() <= s
        invariant ran + Drain(s, target, n, bad) == before + Drain(s, target, |s|, bad)
      {
        var _ := PopAndRun(bad, s, target, before);
        n := n - 1;
      }
    }

    /**
     `run_drops_until`: whatever destructors panic, every slot at or past `target` is invoked
     exactly once, newest first; the panic is re-raised iff at least one destructor panicked.
     */
    method RunDropsUntil(target: nat, bad: set<Elem>) returns (panicked: bool)
      requires Valid()
      modifies Repr
      ensures Valid() && fresh(Repr - old(Repr))
      ensures Slots() == old(Slots())[..Cut(target, |old(Slots())|)]
      ensures ran == old(ran) + Drain(old(Slots()), target, |old(Slots())|, bad)
      ensures panicked <==> AnyPanics(old(Slots()), target, |old(Slots())|, bad)
    {
      ghost var s := Slots();
      var n := Len();
      while n > target
        invariant Valid() && fresh(Repr - old(Repr))
        invariant Cut(target, |s|) <= n == |Slots()| && Slots() <= s
        invariant ran + Drain(s, target, n, bad) == old(ran) + Drain(s, target, |s|, bad)
        invariant !AnyPanics(s, n, |s|, bad)
      {
        var ok := PopAndRun(bad, s, target, old(ran));
        n := n - 1;
        if !ok {
          assert SlotPanics(s[n], bad);
          DrainRemaining(target, bad, s, old(ran));
          return true;
        }
      }
      panicked := false;
    }

    /** `run_all_drops`, used by reset. */
    method RunAllDrops(bad: set<Elem>) returns (panicked: bool)
      requires Valid()
      modifies Repr
      ensures Valid() && fresh(Repr - old(Repr)) && Slots() == []
      ensures ran == old(ran) + Drain(old(Slots()), 0, |old(Slots())|, bad)
      ensures panicked <==> AnyPanics(old(Slots()), 0, |old(Slots())|, bad)
    {
      panicked := RunDropsUntil(0, bad);
    }
  }

  /** One iteration of a drain: what was run plus what remains stays the same. */
  lemma DrainStep(s: seq<DropSlot>, t: nat, n: nat, bad: set<Elem>, ran1: seq<Run>, ran2: seq<Run>)
    requires t < n <= |s|
    requires ran2 == ran1 + [RunOf(s[n - 1], bad)]
    ensures ran2 + Drain(s, t, n - 1, bad) == ran1 + Drain(s, t, n, bad)
  {}
}

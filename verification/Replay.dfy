/**
 Retry without growth: after serving a list of requests, rewinding (or resetting) and serving the
 same list again places every granted request exactly where it was. Exactly when the refused ones
 are refused again as well, the second run repeats the first and opens no block.
 */
module Replay {
  import opened Wrappers
  import opened Drops
  import opened ArenaModel
  import opened ArenaInvariants
  import opened Rewinding
  import opened Growth

  /** Serves the requests in order; `os[i]` is the system's answer to request `i`. */
  function ServeAll(s: State, reqs: seq<Request>, os: seq<Option<nat>>): (State, seq<Outcome>)
    requires |os| == |reqs|
    decreases |reqs|
  {
    if reqs == [] || !Shape(s) || reqs[0].align == 0 then (s, [])
    else
      var (t, out) := Serve(s, reqs[0], os[0]);
      var (u, outs) := ServeAll(t, reqs[1..], os[1..]);
      (u, [out] + outs)
  }

  predicate Small(r: Request) {
    Modest(r.size, r.align) && r.align <= MIN_BLOCK_ALIGN
  }

  /** The two laws a replay relies on. Quantifying over their names keeps them folded in proofs. */
  datatype Law = Invariant | Growth

  ghost predicate Holds(law: Law, s: State) {
    match law
    case Invariant => Inv(s)
    case Growth => Grown(s)
  }

  ghost predicate Ready(s: State) {
    forall law: Law :: Holds(law, s)
  }

  lemma ReadyMeans(s: State)
    ensures Ready(s) <==> Inv(s) && Grown(s)
  {
    if Ready(s) {
      assert Holds(Invariant, s) && Holds(Growth, s);
    }
  }

  /** The system allocator's answer is admissible if it is asked. */
  ghost predicate Answered(s: State, r: Request, os: Option<nat>)
    requires Shape(s) && r.align > 0
  {
    Target(s, r.size, r.align) == |s.blocks| ==> OsOk(s, r.size, r.align, os)
  }

  /** Along the run every request is small and every answer asked for is admissible. */
  ghost predicate AllAnswered(s: State, reqs: seq<Request>, os: seq<Option<nat>>)
    requires |os| == |reqs|
    decreases |reqs|
  {
    reqs == [] ||
    (&& Small(reqs[0]) && Shape(s) && Answered(s, reqs[0], os[0])
     && AllAnswered(Serve(s, reqs[0], os[0]).0, reqs[1..], os[1..]))
  }

  /** Along the run every request is small, answered admissibly if need be, and granted. */
  ghost predicate AllGranted(s: State, reqs: seq<Request>, os: seq<Option<nat>>)
    requires |os| == |reqs|
    decreases |reqs|
  {
    reqs == [] ||
    (&& Small(reqs[0]) && Shape(s) && Answered(s, reqs[0], os[0])
     && Serve(s, reqs[0], os[0]).1.Placed?
     && AllGranted(Serve(s, reqs[0], os[0]).0, reqs[1..], os[1..]))
  }

  // ----- one request -----------------------------------------------------------------------------

  /** Where a granted request leaves the cursor, and which blocks the arena then has. */
  ghost predicate ServedAt(s: State, t: State, out: Outcome, size: nat, align: nat)
    requires align > 0
  {
    && Shape(s)
    && out == Placed(Target(s, size, align), StartIn(s, size, align))
    && t.current == out.blk && t.used == out.off + size
    && |t.blocks| == Max(|s.blocks|, out.blk + 1)
    && (forall j :: 0 <= j < |s.blocks| ==> t.blocks[j] == s.blocks[j].(offset := t.blocks[j].offset))
    && (out.blk == |s.blocks| ==> size <= t.blocks[out.blk].capacity)
  }

  lemma AllocatedAt(s: State, t: State, out: Outcome, size: nat, align: nat)
    requires CursorOk(s) && align > 0 && out.Placed? && Allocated(s, t, out, size, align)
    requires out == Placed(Target(s, size, align), StartIn(s, size, align))
    ensures ServedAt(s, t, out, size, align)
  {}

  /** At most one slot is registered, under the next serial number. */
  ghost predicate LogStep(s: State, t: State) {
    && t.ran == s.ran && t.depth == s.depth
    && ((t.slots == s.slots && t.serial == s.serial)
        || (|t.slots| == |s.slots| + 1 && t.slots[|s.slots|].id == s.serial && t.serial == s.serial + 1))
  }

  /** The newest live region is the one just placed. */
  predicate Appended(s: State, t: State, out: Outcome, size: nat) {
    && |t.live| == |s.live| + 1 && out.Placed?
    && t.live[|s.live|].blk == out.blk && t.live[|s.live|].off == out.off && t.live[|s.live|].size == size
  }

  /** The visible effect of one request. */
  ghost predicate Effect(s: State, t: State, out: Outcome, size: nat, align: nat)
    requires align > 0
  {
    && Inv(t) && Since(s, t)
    && (Grown(s) && Modest(size, align) ==> Grown(t))
    && LogStep(s, t)
    && (out.Placed? ==> ServedAt(s, t, out, size, align) && Appended(s, t, out, size))
    && (!out.Placed? ==> t.current == s.current && t.used == s.used && t.live == s.live && |t.blocks| == |s.blocks|)
    && (t.recounted == s.recounted || (!out.Placed? && t.recounted == s.recounted + s.used))
  }

  /** Serving is allocating and then registering; both keep the invariant and the growth law. */
  lemma ServeMeaning(s: State, r: Request, os: Option<nat>)
    requires Inv(s) && r.size > 0 && ValidAlign(r.align)
    requires Target(s, r.size, r.align) == |s.blocks| ==> OsOk(s, r.size, r.align, os)
    ensures var (t, out) := Serve(s, r, os);
            Effect(s, t, out, r.size, r.align) && (out.Placed? <==> Grants(s, r.size, r.align, r.fallible, os))
  {
    AllocSummary(s, r, os);
    var (a, out) := Alloc(s, r.size, r.align, r.fallible, os);
    ServeUnfolds(s, r, os, a, out);
    if out.Placed? {
      RegisterEffect(s, a, out, r);
    }
  }

  lemma ServeUnfolds(s: State, r: Request, os: Option<nat>, a: State, out: Outcome)
    requires Shape(s) && r.align > 0 && (a, out) == Alloc(s, r.size, r.align, r.fallible, os)
    requires out.Placed? ==> a.live != []
    ensures Serve(s, r, os) == (if out.Placed? then Register(a, r.kind) else a, out)
  {}

  lemma RegisterEffect(s: State, a: State, out: Outcome, r: Request)
    requires r.align > 0 && Effect(s, a, out, r.size, r.align) && out.Placed? && a.live[|s.live|].slot.None?
    requires a.slots == s.slots && a.serial == s.serial
    ensures Effect(s, Register(a, r.kind), out, r.size, r.align)
  {
    RegisterMeaning(s, a, r.kind);
  }

  lemma AllocSummary(s: State, r: Request, os: Option<nat>)
    requires Inv(s) && r.size > 0 && ValidAlign(r.align)
    requires Target(s, r.size, r.align) == |s.blocks| ==> OsOk(s, r.size, r.align, os)
    ensures var (a, out) := Alloc(s, r.size, r.align, r.fallible, os);
            && Effect(s, a, out, r.size, r.align)
            && (out.Placed? ==> a.live[|s.live|].slot.None? && a.slots == s.slots && a.serial == s.serial)
            && (out.Placed? <==> Grants(s, r.size, r.align, r.fallible, os))
  {
    var (a, out) := Alloc(s, r.size, r.align, r.fallible, os);
    AllocMeaning(s, r.size, r.align, r.fallible, os);
    AllocatedSummary(s, a, out, r.size, r.align);
  }

  lemma AllocatedSummary(s: State, a: State, out: Outcome, size: nat, align: nat)
    requires Inv(s) && align > 0 && Allocated(s, a, out, size, align) && GrowthStep(s, a, out, size, align)
    requires out.Placed? ==> out == Placed(Target(s, size, align), StartIn(s, size, align))
    ensures Effect(s, a, out, size, align)
    ensures out.Placed? ==> a.live[|s.live|].slot.None? && a.slots == s.slots && a.serial == s.serial
  {
    SinceAllocated(s, a, out, size, align);
    if Grown(s) && Modest(size, align) {
      AllocatedKeepsGrown(s, a, out, size, align);
    }
    if out.Placed? {
      AllocatedAt(s, a, out, size, align);
      AllocatedShape(s, a, out, size, align);
    }
  }

  lemma RegisterMeaning(m: State, s: State, kind: DropKind)
    requires Inv(s) && Since(m, s) && |m.live| < |s.live| && s.live[|s.live| - 1].slot.None?
    ensures var t := Register(s, kind);
            && Inv(t) && Since(m, t) && (Grown(s) ==> Grown(t)) && LogStep(s, t) && t.recounted == s.recounted
            && |t.live| == |s.live| && t.live[|s.live| - 1].(slot := None) == s.live[|s.live| - 1]
            && t.blocks == s.blocks && t.current == s.current && t.used == s.used
  {
    RegisterIsRenewed(s, kind);
    var t := Register(s, kind);
    if t != s {
      SinceRenewed(m, s, t, t.live[|s.live| - 1]);
    }
  }

  /**
   The destructor a granted request leaves in the log: none, one for a single value, one for all
   elements of a nonempty slice, under the next serial number. A refused request leaves none.
   */
  lemma {:induction false} GrantRegisters(s: State, r: Request, os: Option<nat>)
    requires Wellformed(s) && Shape(s) && r.size > 0 && ValidAlign(r.align) && OsOk(s, r.size, r.align, os)
    ensures var (t, out) := Serve(s, r, os);
            if !out.Placed? then t.slots == s.slots
            else match r.kind
                 case NoDrop => t.slots == s.slots
                 case One => t.slots == s.slots + [Single(s.serial)]
                 case Many(n) => t.slots == s.slots + if n > 0 then [Range(s.serial, n)] else []
  {
    WellformedMeans(s);
    AllocSummary(s, r, os);
    AllocKeepsWellformed(s, r.size, r.align, r.fallible, os);
    var (a, out) := Alloc(s, r.size, r.align, r.fallible, os);
    ServeUnfolds(s, r, os, a, out);
  }

  /** Calls that a log of invocations made, element by element. */
  function Calls(ran: seq<Run>): nat {
    if ran == [] then 0 else ran[0].reached + Calls(ran[1..])
  }

  /**
   Rewinding right after a grant calls the destructor of a single value once, that of every element
   of a slice once, front to back, and nothing else.
   */
  lemma {:induction false} RewindCallsRegistered(s: State, r: Request, os: Option<nat>, t: State)
    requires Wellformed(s) && Shape(s) && r.size > 0 && ValidAlign(r.align) && OsOk(s, r.size, r.align, os)
    requires Serve(s, r, os).1.Placed? && t == Serve(s, r, os).0
    ensures InRange(t, Cp(s))
    ensures var u := Rewind(t, Cp(s), {});
            && u.slots == s.slots && s.ran <= u.ran
            && Calls(u.ran[|s.ran|..]) == match r.kind case NoDrop => 0 case One => 1 case Many(n) => n
  {
    GrantRegisters(s, r, os);
    ServedAbove(s, r, os);
    RewindMeaning(s, t, {});
    RanSince(s.ran, t.ran, Rewind(t, Cp(s), {}).ran, Drain(t.slots, |s.slots|, |t.slots|, {}));
    match r.kind
    case NoDrop =>
    case One => CallsOfLast(s.slots, Single(s.serial));
    case Many(n) =>
      if n > 0 {
        CallsOfLast(s.slots, Range(s.serial, n));
      }
  }

  lemma {:induction false} ServedAbove(s: State, r: Request, os: Option<nat>)
    requires Wellformed(s) && Shape(s) && r.size > 0 && ValidAlign(r.align) && OsOk(s, r.size, r.align, os)
    ensures var t := Serve(s, r, os).0; Wellformed(t) && Since(s, t) && t.ran == s.ran
  {
    WellformedMeans(s);
    ServeMeaning(s, r, os);
    WellformedMeans(Serve(s, r, os).0);
  }

  lemma {:induction false} RanSince(a: seq<Run>, b: seq<Run>, c: seq<Run>, runs: seq<Run>)
    requires b == a && c == b + runs
    ensures a <= c && c[|a|..] == runs
  {}

  /** The drain of the newest slot alone, without a panic. */
  lemma {:induction false} CallsOfLast(kept: seq<DropSlot>, slot: DropSlot)
    ensures Calls(Drain(kept + [slot], |kept|, |kept + [slot]|, {}))
              == match slot case Single(_) => 1 case Range(_, n) => n
  {
    var slots, k := kept + [slot], |kept|;
    var runs := Drain(slots, k, k + 1, {});
    assert runs[1..] == [];
    DrainReachesElement(slots, k, k + 1, {}, k, Count(slot));
    if Count(slot) > 0 {
      DrainReachesElement(slots, k, k + 1, {}, k, Count(slot) - 1);
    }
  }

  // ----- two runs side by side -------------------------------------------------------------------

  /** `t` stands where `s` stands and has at least the blocks of `s`. */
  ghost predicate Shadows(s: State, t: State) {
    && t.current == s.current < |s.blocks| <= |t.blocks| && t.used == s.used
    && forall j :: 0 <= j < |s.blocks| ==> t.blocks[j] == s.blocks[j].(offset := t.blocks[j].offset)
  }

  /** The blocks of `t` are those `s` will have owned in the end. */
  ghost predicate Foresees(t: State, s: State) {
    && |t.blocks| == |s.blocks|
    && forall j :: 0 <= j < |s.blocks| ==> t.blocks[j] == s.blocks[j].(offset := t.blocks[j].offset)
  }

  lemma {:induction false} FirstFitFound(blocks: seq<Blk>, size: nat, i: nat, k: nat)
    requires i <= k < |blocks| && size <= blocks[k].capacity
    requires forall j :: i <= j < k ==> blocks[j].capacity < size
    ensures FirstFit(blocks, size, i) == k
    decreases k - i
  {}

  /** The replay picks the block the first run picked, opened in the meantime or not. */
  lemma SameTarget(s: State, t: State, size: nat, align: nat)
    requires Inv(s) && Inv(t) && Peak(s) && Peak(t) && Shadows(s, t) && size > 0 && 0 < align <= MIN_BLOCK_ALIGN
    requires var i := Target(s, size, align);
             i == |s.blocks| ==> i < |t.blocks| && size <= t.blocks[i].capacity
    ensures Target(t, size, align) == Target(s, size, align) < |t.blocks|
    ensures BumpFits(s, size, align) == BumpFits(t, size, align) && BumpAddress(s, align) == BumpAddress(t, align)
  {
    var i := Target(s, size, align);
    TargetIsFirstFit(s, size, align);
    TargetIsFirstFit(t, size, align);
    if !BumpFits(s, size, align) {
      assert size <= t.blocks[i].capacity;
      FirstFitFound(t.blocks, size, s.current + 1, i);
    }
  }

  lemma SameStart(s: State, t: State, size: nat, align: nat)
    requires Shape(s) && Shape(t) && Shadows(s, t) && align > 0
    ensures StartIn(s, size, align) == StartIn(t, size, align)
    ensures TurnedAway(s, size, align, true) == TurnedAway(t, size, align, true)
  {}

  /** Two granted requests placed alike leave the two arenas side by side again. */
  lemma StillShadows(s: State, u: State, t: State, v: State, out: Outcome, size: nat, align: nat)
    requires align > 0 && Shadows(s, t) && ServedAt(s, u, out, size, align) && ServedAt(t, v, out, size, align)
    requires out.blk < |t.blocks| && |u.blocks| <= |t.blocks|
    requires forall j :: 0 <= j < |u.blocks| ==> t.blocks[j] == u.blocks[j].(offset := t.blocks[j].offset)
    ensures Shadows(u, v) && |v.blocks| == |t.blocks|
  {}

  /** What serving one small request did, granted or not. */
  ghost predicate Went(s: State, u: State, out: Outcome, r: Request, os: Option<nat>) {
    && Small(r) && Shape(s) && (out.Placed? <==> Grants(s, r.size, r.align, r.fallible, os))
    && if out.Placed? then ServedAt(s, u, out, r.size, r.align)
       else out == Refusal(r.fallible) && u.current == s.current && u.used == s.used && |u.blocks| == |s.blocks|
  }

  /** The kind of a refusal depends on the variant called only. */
  lemma RefusalKind(s: State, r: Request, os: Option<nat>)
    requires Inv(s) && Small(r) && Answered(s, r, os)
    ensures var out := Serve(s, r, os).1; out.Placed? || out == Refusal(r.fallible)
  {
    NextBlockCovers(s.nextSize, r.size, r.align);
    AllocMeaning(s, r.size, r.align, r.fallible, os);
  }

  lemma ServeWent(s: State, r: Request, os: Option<nat>)
    requires Ready(s) && Shape(s) && Small(r) && Answered(s, r, os)
    ensures var (u, out) := Serve(s, r, os); Went(s, u, out, r, os) && Ready(u) && Since(s, u)
  {
    ReadyMeans(s);
    ServeMeaning(s, r, os);
    RefusalKind(s, r, os);
    ReadyMeans(Serve(s, r, os).0);
  }

  /** No retained block after the cursor could take the request. */
  ghost predicate NoneFits(s: State, blocks: seq<Blk>, r: Request) {
    forall j :: s.current < j < |blocks| ==> blocks[j].capacity < r.size
  }

  /** A refused request is refused again. */
  ghost predicate RefusedAgain(s: State, blocks: seq<Blk>, r: Request, os': Option<nat>)
    requires Shape(s) && r.align > 0
  {
    TurnedAway(s, r.size, r.align, r.fallible) || (os'.None? && NoneFits(s, blocks, r))
  }

  /** The replay of a granted request does not depend on the system allocator. */
  lemma GrantedAlike(s: State, u: State, t: State, out: Outcome, r: Request, os: Option<nat>, os': Option<nat>)
    requires Ready(s) && Ready(t) && Shape(t) && Shadows(s, t) && Went(s, u, out, r, os) && out.Placed?
    requires |u.blocks| <= |t.blocks|
    requires forall j :: 0 <= j < |u.blocks| ==> t.blocks[j] == u.blocks[j].(offset := t.blocks[j].offset)
    ensures Answered(t, r, os') && Serve(t, r, os').1 == out
    ensures ServedAt(t, Serve(t, r, os').0, out, r.size, r.align) && out.blk < |t.blocks|
  {
    ReadyMeans(s);
    ReadyMeans(t);
    SameTarget(s, t, r.size, r.align);
    SameStart(s, t, r.size, r.align);
    ServeWent(t, r, os');
  }

  /** The replay of a refused request. */
  lemma RefusedAlike(s: State, u: State, t: State, v: State, out: Outcome, out': Outcome, r: Request,
                     os: Option<nat>, os': Option<nat>)
    requires Ready(s) && Ready(t) && Shape(s) && Shape(t) && Shadows(s, t)
    requires !out.Placed? && Went(s, u, out, r, os) && Went(t, v, out', r, os')
    ensures out' == out <==> RefusedAgain(s, t.blocks, r, os')
  {
    ReadyMeans(s);
    ReadyMeans(t);
    SmallTurns(s, t, r);
    NextBlockCovers(t.nextSize, r.size, r.align);
    if !TurnedAway(s, r.size, r.align, r.fallible) {
      RefusedTarget(s, t, r, os);
    }
  }

  /** Two refusals leave the arenas side by side. */
  lemma RefusedShadows(s: State, u: State, t: State, v: State)
    requires Shadows(s, t) && Since(t, v)
    requires u.current == s.current && u.used == s.used && |u.blocks| == |s.blocks|
    requires v.current == t.current && v.used == t.used && |v.blocks| == |t.blocks|
    requires forall j :: 0 <= j < |u.blocks| ==> t.blocks[j] == u.blocks[j].(offset := t.blocks[j].offset)
    ensures Shadows(u, v)
  {
    forall j | 0 <= j < |u.blocks| ensures v.blocks[j] == u.blocks[j].(offset := v.blocks[j].offset) {
      assert v.blocks[j] == t.blocks[j].(offset := v.blocks[j].offset);
    }
  }

  lemma SmallTurns(s: State, t: State, r: Request)
    requires Shape(s) && Shape(t) && Shadows(s, t) && Small(r)
    ensures TurnedAway(s, r.size, r.align, r.fallible) == TurnedAway(t, r.size, r.align, r.fallible)
    ensures BumpFits(s, r.size, r.align) == BumpFits(t, r.size, r.align)
  {}

  /** Where a request that the first run refused goes in the replay. */
  lemma RefusedTarget(s: State, t: State, r: Request, os: Option<nat>)
    requires Inv(s) && Inv(t) && Peak(s) && Peak(t) && Shadows(s, t) && Small(r)
    requires !Grants(s, r.size, r.align, r.fallible, os) && !TurnedAway(s, r.size, r.align, r.fallible)
    ensures Target(t, r.size, r.align) == |t.blocks| <==> NoneFits(s, t.blocks, r)
  {
    SmallTurns(s, t, r);
    TargetIsFirstFit(s, r.size, r.align);
    TargetIsFirstFit(t, r.size, r.align);
  }

  // ----- whole lists of requests ------------------------------------------------------------------

  lemma ServeAllHead(s: State, reqs: seq<Request>, os: seq<Option<nat>>)
    requires |os| == |reqs| > 0 && Shape(s) && reqs[0].align > 0
    ensures var (u, out) := Serve(s, reqs[0], os[0]);
            ServeAll(s, reqs, os) == (ServeAll(u, reqs[1..], os[1..]).0, [out] + ServeAll(u, reqs[1..], os[1..]).1)
  {}

  lemma {:induction false} RunMeaning(s: State, reqs: seq<Request>, os: seq<Option<nat>>)
    requires |os| == |reqs| && Ready(s) && AllAnswered(s, reqs, os)
    ensures Ready(ServeAll(s, reqs, os).0) && Since(s, ServeAll(s, reqs, os).0)
    decreases |reqs|
  {
    if reqs == [] {
      ReadyMeans(s);
      SinceSelf(s);
    } else {
      ServeWent(s, reqs[0], os[0]);
      ServeAllHead(s, reqs, os);
      var t := Serve(s, reqs[0], os[0]).0;
      RunMeaning(t, reqs[1..], os[1..]);
      SinceTransitive(s, t, ServeAll(t, reqs[1..], os[1..]).0);
    }
  }

  lemma SinceStatic(a: State, b: State, t: State)
    requires Since(a, b) && Foresees(t, b)
    ensures |a.blocks| <= |t.blocks|
    ensures forall j :: 0 <= j < |a.blocks| ==> t.blocks[j] == a.blocks[j].(offset := t.blocks[j].offset)
  {}

  lemma ForeseesStill(t: State, v: State, fin: State)
    requires Foresees(t, fin) && |v.blocks| == |t.blocks| && Since(t, v)
    ensures Foresees(v, fin)
  {}

  /** `fin` is the state the first run ended in: every request it refused is refused again. */
  ghost predicate RefusalsStand(s: State, reqs: seq<Request>, os: seq<Option<nat>>, os': seq<Option<nat>>, fin: State)
    requires |os| == |os'| == |reqs|
    decreases |reqs|
  {
    reqs == [] ||
    (Shape(s) && reqs[0].align > 0
     && var (u, out) := Serve(s, reqs[0], os[0]);
        && (out.Placed? || RefusedAgain(s, fin.blocks, reqs[0], os'[0]))
        && RefusalsStand(u, reqs[1..], os[1..], os'[1..], fin))
  }

  /**
   Until the replay parts from the first run, the system's answers to requests that the first run
   refused are admissible. Nothing is said about the others: they do not reach it.
   */
  ghost predicate AnswersFit(s: State, t: State, reqs: seq<Request>, os: seq<Option<nat>>, os': seq<Option<nat>>)
    requires |os| == |os'| == |reqs|
    decreases |reqs|
  {
    reqs == [] ||
    (Shape(s) && Shape(t) && reqs[0].align > 0
     && var (u, out) := Serve(s, reqs[0], os[0]);
        var (v, out') := Serve(t, reqs[0], os'[0]);
        && (out.Placed? || Answered(t, reqs[0], os'[0]))
        && (out' == out ==> AnswersFit(u, v, reqs[1..], os[1..], os'[1..])))
  }

  /** One request of the replay next to the first run. */
  lemma ReplayStep(s: State, t: State, r: Request, os: Option<nat>, os': Option<nat>, fin: State)
    requires Ready(s) && Ready(t) && Shape(s) && Shape(t) && Shadows(s, t) && Foresees(t, fin)
    requires Small(r) && Answered(s, r, os) && Since(Serve(s, r, os).0, fin)
    requires Serve(s, r, os).1.Placed? || Answered(t, r, os')
    ensures var (u, out) := Serve(s, r, os);
            var (v, out') := Serve(t, r, os');
            && (out' == out <==> out.Placed? || RefusedAgain(s, fin.blocks, r, os'))
            && (out' == out ==> Ready(u) && Ready(v) && Shadows(u, v) && Foresees(v, fin) && |v.blocks| == |t.blocks|)
  {
    ServeWent(s, r, os);
    var (u, out) := Serve(s, r, os);
    SinceStatic(u, fin, t);
    if out.Placed? {
      GrantedAlike(s, u, t, out, r, os, os');
      ServeWent(t, r, os');
      StillShadows(s, u, t, Serve(t, r, os').0, out, r.size, r.align);
    } else {
      ServeWent(t, r, os');
      RefusedAlike(s, u, t, Serve(t, r, os').0, out, Serve(t, r, os').1, r, os, os');
      if Serve(t, r, os').1 == out {
        RefusedShadows(s, u, t, Serve(t, r, os').0);
      }
    }
    var v := Serve(t, r, os').0;
    if |v.blocks| == |t.blocks| {
      ForeseesStill(t, v, fin);
    }
  }

  /** The replay of a whole list, next to its first run. */
  lemma {:induction false} ReplayAll(s: State, t: State, reqs: seq<Request>, os: seq<Option<nat>>,
                                     os': seq<Option<nat>>, fin: State)
    requires |os| == |os'| == |reqs| && fin == ServeAll(s, reqs, os).0
    requires Ready(s) && Ready(t) && Shape(t) && Shadows(s, t) && AllAnswered(s, reqs, os) && Foresees(t, fin)
    requires AnswersFit(s, t, reqs, os, os')
    ensures ServeAll(t, reqs, os').1 == ServeAll(s, reqs, os).1 <==> RefusalsStand(s, reqs, os, os', fin)
    ensures RefusalsStand(s, reqs, os, os', fin) ==> |ServeAll(t, reqs, os').0.blocks| == |t.blocks|
    decreases |reqs|
  {
    if reqs != [] {
      var r := reqs[0];
      ServeWent(s, r, os[0]);
      ServeAllHead(s, reqs, os);
      ServeAllHead(t, reqs, os');
      var (u, out) := Serve(s, r, os[0]);
      var (v, out') := Serve(t, r, os'[0]);
      RunMeaning(u, reqs[1..], os[1..]);
      ReplayStep(s, t, r, os[0], os'[0], fin);
      HeadsDiffer(out, ServeAll(u, reqs[1..], os[1..]).1, out', ServeAll(v, reqs[1..], os'[1..]).1);
      if out' == out {
        ReadyMeans(v);
        ReplayAll(u, v, reqs[1..], os[1..], os'[1..], fin);
      }
    }
  }

  lemma HeadsDiffer(a: Outcome, rest: seq<Outcome>, b: Outcome, rest': seq<Outcome>)
    ensures [b] + rest' == [a] + rest <==> b == a && rest' == rest
  {
    assert ([a] + rest)[0] == a && ([b] + rest')[0] == b;
    assert ([a] + rest)[1..] == rest && ([b] + rest')[1..] == rest';
  }

  /** How the arena is taken back for the second run. */
  datatype Return = ByRewind | ByReset

  /** No destructor panics on the way back; a reset goes back to the start of block 0. */
  ghost predicate TakenBack(how: Return, m: State, s: State, t: State, bad: set<Elem>) {
    match how
    case ByRewind => NoPanic(s, |m.slots|, bad) && InRange(s, Cp(m)) && t == Rewind(s, Cp(m), bad)
    case ByReset => NoPanic(s, 0, bad) && Shape(s) && m.current == 0 && m.used == 0 && t == Reset(s, bad)
  }

  /** What is known of a list served from `m` to `s`, and again from `t`, the arena taken back. */
  datatype Premise = SoundStart | FirstRun | WayBack | SecondRun

  ghost predicate Given(p: Premise, how: Return, m: State, s: State, t: State, reqs: seq<Request>,
                        os: seq<Option<nat>>, os': seq<Option<nat>>, bad: set<Elem>)
    requires |os| == |os'| == |reqs|
  {
    match p
    case SoundStart => Ready(m)
    case FirstRun => AllAnswered(m, reqs, os) && s == ServeAll(m, reqs, os).0
    case WayBack => TakenBack(how, m, s, t, bad)
    case SecondRun => AnswersFit(m, t, reqs, os, os')
  }

  ghost predicate Retried(how: Return, m: State, s: State, t: State, reqs: seq<Request>,
                          os: seq<Option<nat>>, os': seq<Option<nat>>, bad: set<Elem>)
    requires |os| == |os'| == |reqs|
  {
    forall p: Premise :: Given(p, how, m, s, t, reqs, os, os', bad)
  }

  lemma RetriedMeans(how: Return, m: State, s: State, t: State, reqs: seq<Request>,
                     os: seq<Option<nat>>, os': seq<Option<nat>>, bad: set<Elem>)
    requires |os| == |os'| == |reqs|
    ensures Retried(how, m, s, t, reqs, os, os', bad) <==>
              && Ready(m) && AllAnswered(m, reqs, os) && s == ServeAll(m, reqs, os).0
              && TakenBack(how, m, s, t, bad) && AnswersFit(m, t, reqs, os, os')
  {
    if Retried(how, m, s, t, reqs, os, os', bad) {
      assert Given(SoundStart, how, m, s, t, reqs, os, os', bad) && Given(FirstRun, how, m, s, t, reqs, os, os', bad);
      assert Given(WayBack, how, m, s, t, reqs, os, os', bad) && Given(SecondRun, how, m, s, t, reqs, os, os', bad);
    }
  }

  /** What a second run has in common with the first when it repeats it. */
  datatype Aspect = Outcomes | BlockList

  ghost predicate Agree(aspect: Aspect, m: State, s: State, t: State, reqs: seq<Request>,
                        os: seq<Option<nat>>, os': seq<Option<nat>>)
    requires |os| == |os'| == |reqs|
  {
    match aspect
    case Outcomes => ServeAll(t, reqs, os').1 == ServeAll(m, reqs, os).1
    case BlockList => |ServeAll(t, reqs, os').0.blocks| == |s.blocks|
  }

  /** Every outcome is the same, block and offset included, and no block is opened. */
  ghost predicate Repeats(m: State, s: State, t: State, reqs: seq<Request>, os: seq<Option<nat>>, os': seq<Option<nat>>)
    requires |os| == |os'| == |reqs|
  {
    forall aspect: Aspect :: Agree(aspect, m, s, t, reqs, os, os')
  }

  /**
   Retry, exactly. After a rewind or a reset the second run repeats the first if and only if each
   request the first run refused was turned away at its address, or the system allocator refuses
   again and no block of the first run's final arena after the cursor then could take it.
   */
  lemma RetryExactly(how: Return, m: State, s: State, t: State, reqs: seq<Request>,
                     os: seq<Option<nat>>, os': seq<Option<nat>>, bad: set<Elem>)
    requires |os| == |os'| == |reqs| && Retried(how, m, s, t, reqs, os, os', bad)
    ensures Repeats(m, s, t, reqs, os, os') <==> RefusalsStand(m, reqs, os, os', s)
  {
    OutcomesDecide(how, m, s, t, reqs, os, os', bad);
    if Repeats(m, s, t, reqs, os, os') {
      assert Agree(Outcomes, m, s, t, reqs, os, os');
    }
  }

  /** The outcomes alone decide it: a second run with the same outcomes opens nothing. */
  lemma OutcomesDecide(how: Return, m: State, s: State, t: State, reqs: seq<Request>,
                       os: seq<Option<nat>>, os': seq<Option<nat>>, bad: set<Elem>)
    requires |os| == |os'| == |reqs| && Retried(how, m, s, t, reqs, os, os', bad)
    ensures ServeAll(t, reqs, os').1 == ServeAll(m, reqs, os).1 <==> RefusalsStand(m, reqs, os, os', s)
    ensures RefusalsStand(m, reqs, os, os', s) ==> |ServeAll(t, reqs, os').0.blocks| == |s.blocks|
  {
    RetriedMeans(how, m, s, t, reqs, os, os', bad);
    if how == ByRewind {
      RewoundReady(m, reqs, os, bad);
    } else {
      EmptiedReady(m, reqs, os, bad);
    }
    ReplayAll(m, t, reqs, os, os', s);
  }

  lemma RewoundReady(m: State, reqs: seq<Request>, os: seq<Option<nat>>, bad: set<Elem>)
    requires |os| == |reqs| && Ready(m) && AllAnswered(m, reqs, os) && NoPanic(ServeAll(m, reqs, os).0, |m.slots|, bad)
    ensures var s := ServeAll(m, reqs, os).0;
            InRange(s, Cp(m))
            && var t := Rewind(s, Cp(m), bad); Ready(t) && Shape(t) && Shadows(m, t) && Foresees(t, s)
  {
    var s := ServeAll(m, reqs, os).0;
    ReadyMeans(m);
    RunMeaning(m, reqs, os);
    ReadyMeans(s);
    RewindRestores(m, s, bad);
    var t := Rewind(s, Cp(m), bad);
    RestoredKeepsInv(m, s, t);
    RewoundKeepsGrown(m, s, t, bad);
    ReadyMeans(t);
    RestoredShadows(m, s, t);
  }

  lemma RestoredShadows(m: State, s: State, t: State)
    requires Since(m, s) && Restored(m, s, t)
    ensures Shadows(m, t) && Foresees(t, s)
  {}

  lemma EmptiedReady(m: State, reqs: seq<Request>, os: seq<Option<nat>>, bad: set<Elem>)
    requires |os| == |reqs| && Ready(m) && AllAnswered(m, reqs, os) && m.current == 0 && m.used == 0
    requires NoPanic(ServeAll(m, reqs, os).0, 0, bad)
    ensures var s := ServeAll(m, reqs, os).0;
            Shape(s) && var t := Reset(s, bad); Ready(t) && Shape(t) && Shadows(m, t) && Foresees(t, s)
  {
    var s := ServeAll(m, reqs, os).0;
    ReadyMeans(m);
    RunMeaning(m, reqs, os);
    ReadyMeans(s);
    ResetEmpties(s, bad);
    var t := Reset(s, bad);
    EmptiedKeepsInv(s, t);
    EmptiedKeepsGrown(s, t);
    ReadyMeans(t);
    EmptiedShadows(m, s, t);
  }

  lemma EmptiedShadows(m: State, s: State, t: State)
    requires Since(m, s) && Emptied(s, t) && m.current == 0 && m.used == 0
    ensures Shadows(m, t) && Foresees(t, s)
  {}

  /** A run without refusals meets every condition on refusals. */
  lemma {:induction false} GrantsStand(s: State, t: State, reqs: seq<Request>, os: seq<Option<nat>>,
                                       os': seq<Option<nat>>, fin: State)
    requires |os| == |os'| == |reqs| && AllGranted(s, reqs, os) && fin == ServeAll(s, reqs, os).0
    requires Ready(s) && Ready(t) && Shape(t) && Shadows(s, t) && Foresees(t, fin)
    ensures AllAnswered(s, reqs, os) && AnswersFit(s, t, reqs, os, os') && RefusalsStand(s, reqs, os, os', fin)
    decreases |reqs|
  {
    if reqs != [] {
      var r := reqs[0];
      GrantedAnswered(s, reqs, os);
      ServeWent(s, r, os[0]);
      ServeAllHead(s, reqs, os);
      var u := Serve(s, r, os[0]).0;
      RunMeaning(u, reqs[1..], os[1..]);
      ReplayStep(s, t, r, os[0], os'[0], fin);
      ReadyMeans(Serve(t, r, os'[0]).0);
      GrantsStand(u, Serve(t, r, os'[0]).0, reqs[1..], os[1..], os'[1..], fin);
    }
  }

  lemma {:induction false} GrantedAnswered(s: State, reqs: seq<Request>, os: seq<Option<nat>>)
    requires |os| == |reqs| && AllGranted(s, reqs, os)
    ensures AllAnswered(s, reqs, os)
    decreases |reqs|
  {
    if reqs != [] {
      GrantedAnswered(Serve(s, reqs[0], os[0]).0, reqs[1..], os[1..]);
    }
  }

  /**
   Retry after rewind of a list that was granted throughout. Whatever the system allocator would
   now answer, every request gets the block and offset it got before, and no block is opened.
   */
  lemma RetryAfterRewind(m: State, reqs: seq<Request>, os: seq<Option<nat>>, os': seq<Option<nat>>, bad: set<Elem>)
    requires |os| == |os'| == |reqs| && Ready(m) && AllGranted(m, reqs, os)
    requires NoPanic(ServeAll(m, reqs, os).0, |m.slots|, bad)
    ensures var s := ServeAll(m, reqs, os).0;
            && InRange(s, Cp(m))
            && ServeAll(Rewind(s, Cp(m), bad), reqs, os').1 == ServeAll(m, reqs, os).1
            && |ServeAll(Rewind(s, Cp(m), bad), reqs, os').0.blocks| == |s.blocks|
  {
    var s := ServeAll(m, reqs, os).0;
    GrantedAnswered(m, reqs, os);
    RewoundReady(m, reqs, os, bad);
    GrantsStand(m, Rewind(s, Cp(m), bad), reqs, os, os', s);
    RetriedMeans(ByRewind, m, s, Rewind(s, Cp(m), bad), reqs, os, os', bad);
    OutcomesDecide(ByRewind, m, s, Rewind(s, Cp(m), bad), reqs, os, os', bad);
  }

  /** Retry after reset of such a list, when the first run started from a fresh or reset arena. */
  lemma RetryAfterReset(m: State, reqs: seq<Request>, os: seq<Option<nat>>, os': seq<Option<nat>>, bad: set<Elem>)
    requires |os| == |os'| == |reqs| && Ready(m) && AllGranted(m, reqs, os)
    requires m.current == 0 && m.used == 0
    requires NoPanic(ServeAll(m, reqs, os).0, 0, bad)
    ensures var s := ServeAll(m, reqs, os).0;
            && Shape(s)
            && ServeAll(Reset(s, bad), reqs, os').1 == ServeAll(m, reqs, os).1
            && |ServeAll(Reset(s, bad), reqs, os').0.blocks| == |s.blocks|
  {
    var s := ServeAll(m, reqs, os).0;
    GrantedAnswered(m, reqs, os);
    EmptiedReady(m, reqs, os, bad);
    GrantsStand(m, Reset(s, bad), reqs, os, os', s);
    RetriedMeans(ByReset, m, s, Reset(s, bad), reqs, os, os', bad);
    OutcomesDecide(ByReset, m, s, Reset(s, bad), reqs, os, os', bad);
  }
}

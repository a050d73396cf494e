/**
 The RAII transaction guard of src/util/transaction.rs as a class over the arena, and the runner
 that executes whole transaction trees on a real arena exactly as `TransactionTree` says.
 */
module Transactions {
  import opened Bits
  import opened Wrappers
  import opened Drops
  import opened ArenaModel
  import opened ArenaInvariants
  import opened Rewinding
  import opened Arenas
  import Tree = TransactionTree

  datatype Diff = Diff(bytesAllocated: nat, blocksTouched: nat)

  class Transaction {
    const arena: Arena
    const checkpoint: Mark
    const bytesAtOpen: nat
    const blockAtOpen: nat
    const depth: nat
    var limit: Option<nat>
    ghost const origin: State

    /** The guard holds a checkpoint that its arena never went below. */
    ghost predicate Valid()
      reads this, arena, arena.blocks, arena.dropRegistry, arena.dropRegistry.Repr
    {
      && arena.Valid() && this !in arena.dropRegistry.Repr && Wellformed(origin) && Since(origin, arena.model)
      && checkpoint == MarkOf(origin) && bytesAtOpen == Reported(origin) && blockAtOpen == origin.current
      && depth == origin.depth + 1
    }

    ghost function Frame(): Tree.Frame
      reads this
    {
      Tree.Frame(origin, limit)
    }

    constructor (arena: Arena)
      requires arena.Valid()
      modifies arena`txnDepth, arena`model
      ensures Valid() && this.arena == arena && origin == old(arena.model) && limit == None
      ensures arena.model == Tree.Open(old(arena.model))
    {
      var m := arena.TakeCheckpoint();
      this.arena := arena;
      checkpoint := m;
      bytesAtOpen := m.bytes;
      blockAtOpen := m.block;
      origin := arena.model;
      limit := None;
      var d := arena.CurrentDepth();
      depth := d + 1;
      new;
      OpenIsAbove(arena.model);
      arena.SetTxnDepth(d + 1);
    }

    /** Keeps all allocations; only the depth counter moves. */
    method Commit()
      requires Valid()
      modifies arena`txnDepth, arena`model
      ensures arena.Valid() && arena.model == Tree.Commit(old(arena.model))
    {
      var d := arena.CurrentDepth();
      arena.SetTxnDepth(if d == 0 then USIZE_MAX else d - 1);
    }

    /** `Drop` of an uncommitted guard: rolls everything back unless a destructor in `bad` panics. */
    method RollBack(bad: set<Elem>) returns (panicked: bool)
      requires Valid()
      modifies arena, arena.blocks, arena.dropRegistry.Repr
      ensures arena.Valid() && arena.blocks == old(arena.blocks)
      ensures fresh(arena.dropRegistry.Repr - old(arena.dropRegistry.Repr))
      ensures InRange(old(arena.model), Cp(origin)) && arena.model == Tree.Rollback(old(arena.model), origin, bad)
      ensures panicked <==> !NoPanic(old(arena.model), |origin.slots|, bad)
    {
      var d := arena.CurrentDepth();
      arena.SetTxnDepth(if d == 0 then 0 else d - 1);
      arena.OriginInRange(origin);
      panicked := arena.Rewind(checkpoint, origin, bad);
    }

    method SetLimit(bytes: nat)
      requires Valid()
      modifies `limit
      ensures Valid() && limit == Some(bytes)
    {
      limit := Some(bytes);
    }

    method BytesUsed() returns (n: nat)
      requires Valid()
      ensures n == Tree.BytesUsed(arena.model, origin)
    {
      var st := arena.GetStats();
      n := if st.bytesAllocated >= bytesAtOpen then st.bytesAllocated - bytesAtOpen else 0;
    }

    method BudgetOk(additional: nat) returns (ok: bool)
      requires Valid()
      ensures ok == Tree.BudgetOk(arena.model, Frame(), additional)
    {
      match limit {
        case None => ok := true;
        case Some(lim) =>
          var used := BytesUsed();
          ok := Min(used + additional, USIZE_MAX) <= lim;
      }
    }

    method BudgetRemaining() returns (r: Option<nat>)
      requires Valid()
      ensures limit.None? ==> r == None
      ensures limit.Some? ==> r == Some(if Tree.BytesUsed(arena.model, origin) <= limit.value
                                        then limit.value - Tree.BytesUsed(arena.model, origin) else 0)
    {
      match limit {
        case None => r := None;
        case Some(lim) =>
          var used := BytesUsed();
          r := Some(if used <= lim then lim - used else 0);
      }
    }

    method GetDiff() returns (d: Diff)
      requires Valid()
      ensures d == Diff(Tree.BytesUsed(arena.model, origin), Tree.BlocksTouched(arena.model, origin))
    {
      var used := BytesUsed();
      var current := arena.CurrentBlock();
      d := Diff(used, (if current >= blockAtOpen then current - blockAtOpen else 0) + 1);
    }
  }

  lemma OpenIsAbove(s: State)
    requires Wellformed(s)
    ensures Wellformed(s) && Since(s, s.(depth := s.depth + 1))
  {
    WellformedMeans(s);
    Tree.OpenIsSound(s);
  }

  // ----- running trees ---------------------------------------------------------------------------

  ghost function FrameOf(t: Transaction?): Option<Tree.Frame>
    reads t
  {
    if t == null then None else Some(t.Frame())
  }

  /** The open transaction, if any, belongs to this arena. */
  ghost predicate Within(arena: Arena, t: Transaction?)
    reads arena, arena.blocks, arena.dropRegistry, arena.dropRegistry.Repr, t
  {
    arena.Valid() && (t != null ==> t.arena == arena && t.Valid())
  }

  /** Runs one node; `ending` tells how control leaves it. */
  method Run(arena: Arena, t: Transaction?, n: Tree.Node, bad: set<Elem>) returns (ending: Tree.Ending)
    requires Within(arena, t) && Tree.AnswersOk(arena.model, FrameOf(t), n, bad)
    modifies arena, arena.blocks, arena.dropRegistry.Repr
    ensures Within(arena, t) && arena.Extended(old(arena.blocks))
    ensures fresh(arena.dropRegistry.Repr - old(arena.dropRegistry.Repr))
    ensures var r := Tree.Exec(old(arena.model), old(FrameOf(t)), n, bad); arena.model == r.s && ending == r.ending
    decreases n, 1
  {
    StaysAbove(arena, t, n, bad);
    match n {
      case Panic => ending := Tree.Unwinding;
      case Do(r, os, budgeted) => ending := RunDo(arena, t, r, os, budgeted, bad);
      case Catch(body) =>
        ending := RunAll(arena, t, body, bad);
        if ending == Tree.Unwinding {
          ending := Tree.Returned;
        }
      case Infallible(limit, body) => ending := RunInfallible(arena, limit, body, bad);
      case Scope(limit, body, commit) => ending := RunScope(arena, limit, body, commit, bad);
    }
  }

  /** The state after a node still stands above the frame's opening. */
  lemma StaysAbove(arena: Arena, t: Transaction?, n: Tree.Node, bad: set<Elem>)
    requires Within(arena, t)
    ensures Shape(arena.model)
    ensures t != null ==> Since(t.origin, Tree.Exec(arena.model, FrameOf(t), n, bad).s)
  {
    arena.ValidMeans();
    WellformedMeans(arena.model);
    Tree.ExecIsLawful(arena.model, FrameOf(t), n, bad);
    Tree.LawfulMeans(arena.model, Tree.Exec(arena.model, FrameOf(t), n, bad));
    if t != null {
      SinceTransitive(t.origin, arena.model, Tree.Exec(arena.model, FrameOf(t), n, bad).s);
    }
  }

  method RunDo(arena: Arena, t: Transaction?, r: Request, os: Option<nat>, budgeted: bool, ghost bad: set<Elem>)
    returns (ending: Tree.Ending)
    requires Within(arena, t) && Tree.AnswersOk(arena.model, FrameOf(t), Tree.Do(r, os, budgeted), bad)
    modifies arena, arena.blocks, arena.dropRegistry.Repr
    ensures arena.Valid() && arena.Extended(old(arena.blocks))
    ensures fresh(arena.dropRegistry.Repr - old(arena.dropRegistry.Repr))
    ensures var q := Tree.Exec(old(arena.model), old(FrameOf(t)), Tree.Do(r, os, budgeted), bad);
            arena.model == q.s && ending == q.ending
  {
    StaysAbove(arena, null, Tree.Panic, bad);
    if budgeted && t != null {
      var ok := t.BudgetOk(r.size);
      if !ok {
        return Tree.PanicIf(!r.fallible);
      }
    }
    if !ValidAlign(r.align) {
      return Tree.Unwinding;
    }
    if r.size == 0 {
      return Tree.Returned;
    }
    var out := arena.Serve(r, os);
    ending := Tree.PanicIf(out.Panicked?);
  }

  method RunAll(arena: Arena, t: Transaction?, body: seq<Tree.Node>, bad: set<Elem>) returns (ending: Tree.Ending)
    requires Within(arena, t) && Tree.AllAnswersOk(arena.model, FrameOf(t), body, bad)
    modifies arena, arena.blocks, arena.dropRegistry.Repr
    ensures Within(arena, t) && arena.Extended(old(arena.blocks))
    ensures fresh(arena.dropRegistry.Repr - old(arena.dropRegistry.Repr))
    ensures var r := Tree.ExecAll(old(arena.model), old(FrameOf(t)), body, bad);
            arena.model == r.s && ending == r.ending
    decreases body, 0
  {
    if |body| == 0 {
      return Tree.Returned;
    }
    ending := Run(arena, t, body[0], bad);
    if ending == Tree.Returned {
      ending := RunAll(arena, t, body[1..], bad);
    }
  }

  /** Opens a transaction, with a budget if one is given, and runs the body inside it. */
  method RunInside(arena: Arena, limit: Option<nat>, body: seq<Tree.Node>, bad: set<Elem>)
    returns (txn: Transaction, ending: Tree.Ending)
    requires arena.Valid()
    requires Tree.AllAnswersOk(Tree.Open(arena.model), Some(Tree.Frame(arena.model, limit)), body, bad)
    modifies arena, arena.blocks, arena.dropRegistry.Repr
    ensures Within(arena, txn) && fresh(txn) && txn.origin == old(arena.model) && arena.Extended(old(arena.blocks))
    ensures fresh(arena.dropRegistry.Repr - old(arena.dropRegistry.Repr))
    ensures var b := Tree.ExecAll(Tree.Open(old(arena.model)), Some(Tree.Frame(old(arena.model), limit)), body, bad);
            arena.model == b.s && ending == b.ending
    decreases body, 1
  {
    txn := new Transaction(arena);
    if limit.Some? {
      txn.SetLimit(limit.value);
    }
    ending := RunAll(arena, txn, body, bad);
  }

  /** `run_with_transaction_infallible`: commits in any case; a panic is re-raised afterwards. */
  method RunInfallible(arena: Arena, limit: Option<nat>, body: seq<Tree.Node>, bad: set<Elem>)
    returns (ending: Tree.Ending)
    requires arena.Valid()
    requires Tree.AllAnswersOk(Tree.Open(arena.model), Some(Tree.Frame(arena.model, limit)), body, bad)
    modifies arena, arena.blocks, arena.dropRegistry.Repr
    ensures arena.Valid() && arena.Extended(old(arena.blocks))
    ensures fresh(arena.dropRegistry.Repr - old(arena.dropRegistry.Repr))
    ensures var b := Tree.ExecAll(Tree.Open(old(arena.model)), Some(Tree.Frame(old(arena.model), limit)), body, bad);
            ending == b.ending && arena.model == if b.ending == Tree.Aborted then b.s else Tree.Commit(b.s)
    decreases body, 2
  {
    var txn, end := RunInside(arena, limit, body, bad);
    if end != Tree.Aborted {
      txn.Commit();
    }
    ending := end;
  }

  /**
   `run_with_transaction` and explicit scopes: commit on success, else the guard rolls back. A
   destructor that panics while the body's panic unwinds aborts the process.
   */
  method RunScope(arena: Arena, limit: Option<nat>, body: seq<Tree.Node>, commit: bool, bad: set<Elem>)
    returns (ending: Tree.Ending)
    requires arena.Valid()
    requires Tree.AllAnswersOk(Tree.Open(arena.model), Some(Tree.Frame(arena.model, limit)), body, bad)
    modifies arena, arena.blocks, arena.dropRegistry.Repr
    ensures arena.Valid() && arena.Extended(old(arena.blocks))
    ensures fresh(arena.dropRegistry.Repr - old(arena.dropRegistry.Repr))
    ensures var b := Tree.ExecAll(Tree.Open(old(arena.model)), Some(Tree.Frame(old(arena.model), limit)), body, bad);
            if b.ending == Tree.Aborted then ending == Tree.Aborted && arena.model == b.s
            else if commit && b.ending == Tree.Returned then ending == Tree.Returned && arena.model == Tree.Commit(b.s)
            else
              && InRange(b.s, Cp(old(arena.model)))
              && arena.model == Tree.RolledBack(old(arena.model), b, bad).s
              && ending == Tree.RolledBack(old(arena.model), b, bad).ending
    decreases body, 2
  {
    var txn, end := RunInside(arena, limit, body, bad);
    ending := end;
    if commit && end == Tree.Returned {
      txn.Commit();
    } else if end != Tree.Aborted {
      var panicked := txn.RollBack(bad);
      if panicked {
        ending := if end == Tree.Unwinding then Tree.Aborted else Tree.Unwinding;
      }
    }
  }
}

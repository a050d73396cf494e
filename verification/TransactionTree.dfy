/**
 Transactions as trees of scopes (src/util/transaction.rs). A scope is opened with a checkpoint,
 runs its body, and either keeps or rolls back what the body allocated; scopes nest as savepoints.
 The semantics below executes a tree on an arena state; the theorems relate it to a reading of
 the tree that knows no arena: which requests were granted, and on which paths all scopes commit.
 */
module TransactionTree {
  import opened Bits
  import opened Wrappers
  import opened Drops
  import opened ArenaModel
  import opened ArenaInvariants
  import opened Rewinding
  import opened Replay
  import opened Accounting

  datatype Node =
    // An allocation, through the innermost transaction (`budgeted`) or through `arena_mut`.
    | Do(req: Request, os: Option<nat>, budgeted: bool)
    // A transaction or savepoint that ends in commit / Ok (`commit`), or in rollback / drop / Err.
    | Scope(limit: Option<nat>, body: seq<Node>, commit: bool)
    // `with_transaction_infallible`: commits even when the body panics, then re-raises.
    | Infallible(limit: Option<nat>, body: seq<Node>)
    // The caller's own `catch_unwind` around some operations of the current scope.
    | Catch(body: seq<Node>)
    // Caller code panics.
    | Panic

  /** The innermost open transaction: the state its checkpoint was taken at, and its budget. */
  datatype Frame = Frame(origin: State, limit: Option<nat>)

  /** How control leaves a node. A panic that leaves a destructor during unwinding aborts the process. */
  datatype Ending = Returned | Unwinding | Aborted

  /**
   What an execution could not know in advance: the region a request was granted, or that it got
   none, and whether a destructor panicked while a scope was rolled back.
   */
  datatype Event = Grant(region: Region) | NoRegion(panicked: bool) | Dropping(panicked: bool)

  /** `log` are the events of the execution, oldest first. */
  datatype Result = Result(s: State, log: seq<Event>, ending: Ending)

  // ----- operations of a transaction -------------------------------------------------------------

  /** `Transaction::new`, after its checkpoint is taken. */
  function Open(s: State): State {
    s.(depth := s.depth + 1)
  }

  /** `commit`: `wrapping_sub` on the depth. */
  function Commit(s: State): State {
    s.(depth := if s.depth == 0 then USIZE_MAX else s.depth - 1)
  }

  /** `Drop`: `saturating_sub` on the depth, then rewind; `bad` are the elements whose destructor panics. */
  function Rollback(s: State, origin: State, bad: set<Elem>): State
    requires InRange(s, Cp(origin))
  {
    Rewind(s.(depth := if s.depth == 0 then 0 else s.depth - 1), Cp(origin), bad)
  }

  /** The ending of a rollback, cut short by a destructor's panic, of a body that ended in `ending`. */
  function StuckEnding(ending: Ending): Ending {
    if ending == Unwinding then Aborted else Unwinding
  }

  /** A scope opened at `s` whose body ended as `b` is rolled back. */
  function RolledBack(s: State, b: Result, bad: set<Elem>): Result
    requires InRange(b.s, Cp(s))
  {
    if NoPanic(b.s, |s.slots|, bad) then Result(Rollback(b.s, s, bad), b.log + [Dropping(false)], b.ending)
    else Result(Rollback(b.s, s, bad), b.log + [Dropping(true)], StuckEnding(b.ending))
  }

  /** `bytes_used`, a saturating difference. */
  function BytesUsed(s: State, origin: State): nat {
    if Reported(s) >= Reported(origin) then Reported(s) - Reported(origin) else 0
  }

  predicate BudgetOk(s: State, f: Frame, additional: nat) {
    match f.limit
    case None => true
    case Some(limit) => Min(BytesUsed(s, f.origin) + additional, USIZE_MAX) <= limit
  }

  /** Blocks touched, as reported by `diff`. */
  function BlocksTouched(s: State, origin: State): nat {
    (if s.current >= origin.current then s.current - origin.current else 0) + 1
  }

  // ----- execution -------------------------------------------------------------------------------

  function PanicIf(c: bool): Ending {
    if c then Unwinding else Returned
  }

  /** An allocation on the arena itself; an inadmissible system answer counts as a refusal. */
  function Allocate(s: State, r: Request, os: Option<nat>): Result
    requires Shape(s)
  {
    if !ValidAlign(r.align) then Result(s, [NoRegion(true)], Unwinding)
    else if r.size == 0 then Result(s, [NoRegion(false)], Returned)
    else
      var answer := if OsOk(s, r.size, r.align, os) then os else None;
      var (t, out) := Serve(s, r, answer);
      Result(t, Recorded(t, out), PanicIf(out.Panicked?))
  }

  /** The event of a request with outcome `out` that left the arena in `t`. */
  function Recorded(t: State, out: Outcome): seq<Event> {
    if out.Placed? && t.live != [] then [Grant(t.live[|t.live| - 1])] else [NoRegion(out.Panicked?)]
  }

  /** Executes a node in the innermost open transaction `f`; `bad` as in `Rollback`. */
  function Exec(s: State, f: Option<Frame>, n: Node, bad: set<Elem>): Result
    decreases n, 1
  {
    match n
    case Panic => Result(s, [], Unwinding)
    case Do(r, os, budgeted) =>
      if !Shape(s) then Result(s, [NoRegion(true)], Unwinding)
      else if budgeted && f.Some? && !BudgetOk(s, f.value, r.size)
      then Result(s, [NoRegion(!r.fallible)], PanicIf(!r.fallible))
      else Allocate(s, r, os)
    case Catch(body) =>
      var b := ExecAll(s, f, body, bad);
      if b.ending == Unwinding then b.(ending := Returned) else b
    case Infallible(limit, body) =>
      var b := ExecAll(Open(s), Some(Frame(s, limit)), body, bad);
      if b.ending == Aborted then b else b.(s := Commit(b.s))
    case Scope(limit, body, commit) =>
      var b := ExecAll(Open(s), Some(Frame(s, limit)), body, bad);
      if b.ending == Aborted then b
      else if commit && b.ending == Returned then b.(s := Commit(b.s))
      else if !InRange(b.s, Cp(s)) then Result(s, b.log, Unwinding)
      else RolledBack(s, b, bad)
  }

  function ExecAll(s: State, f: Option<Frame>, body: seq<Node>, bad: set<Elem>): Result
    decreases body, 0
  {
    if |body| == 0 then Result(s, [], Returned)
    else
      var r := Exec(s, f, body[0], bad);
      if r.ending != Returned then r
      else
        var q := ExecAll(r.s, f, body[1..], bad);
        q.(log := r.log + q.log)
  }

  // ----- the laws of a result --------------------------------------------------------------------

  datatype ResultLaw = StaysSound | StaysAbove | DepthKept

  ghost predicate Holds(law: ResultLaw, s: State, r: Result) {
    match law
    case StaysSound => Inv(r.s)
    case StaysAbove => Since(s, r.s)
    case DepthKept => r.ending != Aborted ==> r.s.depth == s.depth
  }

  /** The arena is sound, stands above where it started, and its depth is back unless the process aborts. */
  ghost predicate Lawful(s: State, r: Result) {
    forall law: ResultLaw :: Holds(law, s, r)
  }

  lemma {:induction false} LawfulMeans(s: State, r: Result)
    ensures Lawful(s, r) <==> Inv(r.s) && Since(s, r.s) && (r.ending != Aborted ==> r.s.depth == s.depth)
  {
    if Lawful(s, r) {
      assert Holds(StaysSound, s, r) && Holds(StaysAbove, s, r) && Holds(DepthKept, s, r);
    }
  }

  lemma {:induction false} NothingIsLawful(s: State, log: seq<Event>, ending: Ending)
    requires Inv(s)
    ensures Lawful(s, Result(s, log, ending))
  {
    SinceSelf(s);
    LawfulMeans(s, Result(s, log, ending));
  }

  lemma {:induction false} AllocateIsLawful(s: State, r: Request, os: Option<nat>)
    requires Inv(s)
    ensures Lawful(s, Allocate(s, r, os))
  {
    if !ValidAlign(r.align) || r.size == 0 {
      NothingIsLawful(s, [NoRegion(true)], Unwinding);
      NothingIsLawful(s, [NoRegion(false)], Returned);
    } else {
      var answer := if OsOk(s, r.size, r.align, os) then os else None;
      ServeMeaning(s, r, answer);
      var (t, out) := Serve(s, r, answer);
      ServedIsLawful(s, t, out, r);
    }
  }

  lemma {:induction false} ServedIsLawful(s: State, t: State, out: Outcome, r: Request)
    requires r.align > 0 && Effect(s, t, out, r.size, r.align)
    ensures Lawful(s, Result(t, Recorded(t, out), PanicIf(out.Panicked?)))
  {}

  /** Soundness and position do not depend on the depth counter. */
  lemma {:induction false} DepthIsFree(m: State, s: State, d: nat, e: nat)
    ensures Inv(s.(depth := d)) <==> Inv(s)
    ensures Since(m.(depth := e), s.(depth := d)) <==> Since(m, s)
  {}

  lemma {:induction false} OpenIsSound(s: State)
    requires Inv(s)
    ensures Inv(Open(s)) && Since(s, Open(s))
  {}

  /** What holds at the end of a scope's body, before its own depth is taken off. */
  lemma {:induction false} BodyStaysAbove(s: State, b: Result)
    requires Lawful(Open(s), b)
    ensures b.ending != Aborted ==> b.s.depth == s.depth + 1
    ensures Inv(b.s.(depth := s.depth)) && Since(s, b.s.(depth := s.depth)) && Inv(b.s) && Since(s, b.s)
  {
    LawfulMeans(Open(s), b);
    DepthIsFree(s, b.s, s.depth, s.depth);
    DepthIsFree(s, b.s, b.s.depth, s.depth + 1);
  }

  lemma {:induction false} CommitIsLawful(s: State, b: Result)
    requires Lawful(Open(s), b)
    ensures b.ending == Aborted ==> Lawful(s, b)
    ensures b.ending != Aborted ==> Lawful(s, b.(s := Commit(b.s))) && b.s.depth == s.depth + 1
  {
    BodyStaysAbove(s, b);
    LawfulMeans(s, b);
    LawfulMeans(s, b.(s := b.s.(depth := s.depth)));
  }

  /** The placement and the counters that a rollback puts back. */
  ghost predicate PutBack(s: State, t: State) {
    && t.current == s.current && t.used == s.used && t.live == s.live && t.slots == s.slots
    && Reported(t) == Reported(s) && t.depth == s.depth
  }

  /** What the rollback of a body that reached `d` and ended in `ending` leaves behind. */
  ghost predicate Unwound(s: State, d: State, ending: Ending, t: State, end: Ending, bad: set<Elem>) {
    && t.slots == s.slots && t.depth == s.depth
    && (PutBack(s, t) <==> NoPanic(d, |s.slots|, bad))
    && if NoPanic(d, |s.slots|, bad) then end == ending
       else
         && end == (if ending == Unwinding then Aborted else Unwinding)
         && t.current == d.current && t.used == d.used && t.live == Forget(d.live, |s.live|)
  }

  /** A rewind to the opening, from a sound state `d` above it, in which no destructor panics. */
  lemma {:induction false} RewindIsLawful(s: State, d: State, log: seq<Event>, ending: Ending, bad: set<Elem>)
    requires Inv(s) && Inv(d) && Since(s, d) && d.depth == s.depth && NoPanic(d, |s.slots|, bad)
    ensures InRange(d, Cp(s))
    ensures var t := Rewind(d, Cp(s), bad); Lawful(s, Result(t, log, ending)) && Unwound(s, d, ending, t, ending, bad)
  {
    RewindRestores(s, d, bad);
    RestoredIsLawful(s, d, Rewind(d, Cp(s), bad), log, ending);
  }

  lemma {:induction false} RestoredIsLawful(s: State, d: State, t: State, log: seq<Event>, ending: Ending)
    requires Inv(s) && Inv(d) && Since(s, d) && d.depth == s.depth && Restored(s, d, t)
    ensures Lawful(s, Result(t, log, ending)) && PutBack(s, t)
  {
    RestoredKeepsInv(s, d, t);
    LawfulMeans(s, Result(t, log, ending));
  }

  /** The same rewind when some destructor panics: the regions stay, without their destructors. */
  lemma {:induction false} StuckIsLawful(s: State, d: State, log: seq<Event>, ending: Ending, bad: set<Elem>)
    requires Inv(s) && Inv(d) && Since(s, d) && d.depth == s.depth && !NoPanic(d, |s.slots|, bad)
    ensures InRange(d, Cp(s))
    ensures var t := Rewind(d, Cp(s), bad);
            Lawful(s, Result(t, log, StuckEnding(ending))) && Unwound(s, d, ending, t, StuckEnding(ending), bad)
  {
    PanickedRewindKeepsInv(s, d, bad);
    LoggedIsLive(s, d, bad);
    ForgottenIsLawful(s, d, Rewind(d, Cp(s), bad), log, StuckEnding(ending));
  }

  lemma {:induction false} ForgottenIsLawful(s: State, d: State, t: State, log: seq<Event>, ending: Ending)
    requires Inv(t) && Since(s, t) && d.depth == s.depth && Forgotten(d, t, |s.live|, s.slots)
    requires |s.live| < |d.live|
    ensures Lawful(s, Result(t, log, ending)) && !PutBack(s, t)
  {
    LawfulMeans(s, Result(t, log, ending));
  }

  /** A destructor can only panic if some region is live that was not at the opening. */
  lemma {:induction false} LoggedIsLive(s: State, d: State, bad: set<Elem>)
    requires DropsOk(s) && DropsOk(d) && s.live <= d.live
    ensures NoPanic(d, |s.slots|, bad) || |s.live| < |d.live|
  {
    if |d.live| == |s.live| {
      assert d.live == s.live;
    }
  }

  /** The rollback of a scope is a rewind of the body's state with the scope's depth taken off. */
  lemma {:induction false} RolledBackIs(s: State, b: Result, d: State, bad: set<Elem>)
    requires b.s.depth == s.depth + 1 && d == b.s.(depth := s.depth) && InRange(d, Cp(s))
    ensures var calm := NoPanic(d, |s.slots|, bad);
            RolledBack(s, b, bad) == Result(Rewind(d, Cp(s), bad), b.log + [Dropping(!calm)],
                                            if calm then b.ending else StuckEnding(b.ending))
  {}

  lemma {:induction false} RollbackIsLawful(s: State, b: Result, bad: set<Elem>)
    requires Inv(s) && Lawful(Open(s), b) && b.ending != Aborted
    ensures InRange(b.s, Cp(s)) && b.s.depth == s.depth + 1
    ensures var r := RolledBack(s, b, bad); Lawful(s, r) && Unwound(s, b.s, b.ending, r.s, r.ending, bad)
  {
    BodyStaysAbove(s, b);
    var d := b.s.(depth := s.depth);
    if NoPanic(d, |s.slots|, bad) {
      RewindIsLawful(s, d, b.log + [Dropping(false)], b.ending, bad);
    } else {
      StuckIsLawful(s, d, b.log + [Dropping(true)], b.ending, bad);
    }
    RolledBackIs(s, b, d, bad);
  }

  lemma {:induction false} ThenIsLawful(s: State, r: Result, q: Result)
    requires Lawful(s, r) && r.ending == Returned && Lawful(r.s, q)
    ensures Lawful(s, q.(log := r.log + q.log))
  {
    LawfulMeans(s, r);
    LawfulMeans(r.s, q);
    SinceTransitive(s, r.s, q.s);
    LawfulMeans(s, q.(log := r.log + q.log));
  }

  // ----- transaction trees ------------------------------------------------------------------------

  /**
   Running any tree, whatever destructors panic on the way, leaves a sound arena, keeps every
   checkpoint held before it valid, and, unless the process aborts, returns the depth counter to
   its value, so `wrapping_sub` never wraps and `saturating_sub` never saturates.
   */
  lemma {:induction false} ExecIsLawful(s: State, f: Option<Frame>, n: Node, bad: set<Elem>)
    requires Inv(s)
    ensures Lawful(s, Exec(s, f, n, bad))
    decreases n, 1
  {
    match n
    case Panic => NothingIsLawful(s, [], Unwinding);
    case Do(r, os, budgeted) =>
      NothingIsLawful(s, [NoRegion(!r.fallible)], PanicIf(!r.fallible));
      AllocateIsLawful(s, r, os);
    case Catch(body) =>
      ExecAllIsLawful(s, f, body, bad);
      CaughtIsLawful(s, ExecAll(s, f, body, bad));
    case Infallible(limit, body) =>
      OpenIsSound(s);
      ExecAllIsLawful(Open(s), Some(Frame(s, limit)), body, bad);
      CommitIsLawful(s, ExecAll(Open(s), Some(Frame(s, limit)), body, bad));
    case Scope(limit, body, commit) =>
      OpenIsSound(s);
      ExecAllIsLawful(Open(s), Some(Frame(s, limit)), body, bad);
      var b := ExecAll(Open(s), Some(Frame(s, limit)), body, bad);
      CommitIsLawful(s, b);
      if b.ending != Aborted {
        RollbackIsLawful(s, b, bad);
      }
  }

  lemma {:induction false} CaughtIsLawful(s: State, r: Result)
    requires Lawful(s, r)
    ensures r.ending == Unwinding ==> Lawful(s, r.(ending := Returned))
  {
    LawfulMeans(s, r);
    LawfulMeans(s, r.(ending := Returned));
  }

  lemma {:induction false} ExecAllIsLawful(s: State, f: Option<Frame>, body: seq<Node>, bad: set<Elem>)
    requires Inv(s)
    ensures Lawful(s, ExecAll(s, f, body, bad))
    decreases body, 0
  {
    if |body| == 0 {
      NothingIsLawful(s, [], Returned);
    } else {
      ExecIsLawful(s, f, body[0], bad);
      var r := Exec(s, f, body[0], bad);
      if r.ending == Returned {
        LawfulMeans(s, r);
        ExecAllIsLawful(r.s, f, body[1..], bad);
        ThenIsLawful(s, r, ExecAll(r.s, f, body[1..], bad));
      }
    }
  }

  // ----- what each kind of scope leaves -----------------------------------------------------------

  /**
   A committed scope whose body returns leaves the body's whole state, with the depth of its
   opening. So does an infallible one, even when its body panics; the panic then goes on.
   */
  lemma {:induction false} CommittedScopeKeeps(s: State, f: Option<Frame>, limit: Option<nat>, body: seq<Node>,
                                               bad: set<Elem>)
    requires Wellformed(s)
    ensures var b := ExecAll(Open(s), Some(Frame(s, limit)), body, bad);
            && (b.ending == Returned ==>
                  Exec(s, f, Scope(limit, body, true), bad) == Result(b.s.(depth := s.depth), b.log, Returned))
            && (b.ending != Aborted ==>
                  Exec(s, f, Infallible(limit, body), bad) == Result(b.s.(depth := s.depth), b.log, b.ending))
  {
    BodyDepth(s, limit, body, bad);
  }

  lemma {:induction false} BodyDepth(s: State, limit: Option<nat>, body: seq<Node>, bad: set<Elem>)
    requires Wellformed(s)
    ensures var b := ExecAll(Open(s), Some(Frame(s, limit)), body, bad);
            b.ending != Aborted ==> b.s.depth == s.depth + 1
  {
    WellformedMeans(s);
    OpenIsSound(s);
    ExecAllIsLawful(Open(s), Some(Frame(s, limit)), body, bad);
    BodyStaysAbove(s, ExecAll(Open(s), Some(Frame(s, limit)), body, bad));
  }

  /** `catch_unwind` turns a panic, and nothing else, into a return; the state stays. */
  lemma {:induction false} CatchStopsPanics(s: State, f: Option<Frame>, body: seq<Node>, bad: set<Elem>)
    ensures var b := ExecAll(s, f, body, bad);
            Exec(s, f, Catch(body), bad)
              == Result(b.s, b.log, match b.ending case Aborted => Aborted case Returned => Returned case Unwinding => Returned)
  {}

  /** Nothing runs after a panic or an abort, and everything up to it does. */
  lemma {:induction false} BodyStopsAtPanic(s: State, f: Option<Frame>, first: seq<Node>, rest: seq<Node>, bad: set<Elem>)
    ensures var r := ExecAll(s, f, first, bad);
            ExecAll(s, f, first + rest, bad)
              == if r.ending != Returned then r
                 else var q := ExecAll(r.s, f, rest, bad); Result(q.s, r.log + q.log, q.ending)
    decreases |first|
  {
    if |first| == 0 {
      assert first + rest == rest;
      assert [] + ExecAll(s, f, rest, bad).log == ExecAll(s, f, rest, bad).log;
    } else {
      assert (first + rest)[1..] == first[1..] + rest;
      var r := Exec(s, f, first[0], bad);
      BodyStopsAtPanic(r.s, f, first[1..], rest, bad);
      var m := ExecAll(r.s, f, first[1..], bad);
      ConcatAssociative(r.log, m.log, ExecAll(m.s, f, rest, bad).log);
    }
  }

  /**
   A scope that does not commit, or whose body panics, leaves no trace exactly when none of the
   destructors logged since its opening panics: the cursor, the live regions, the pending
   destructors, the reported bytes and the depth are then those at its opening. Otherwise the log
   and the depth are, the regions stay allocated, and a panic leaves the scope.
   */
  lemma {:induction false} UncommittedScopeLeavesNoTrace(s: State, f: Option<Frame>, limit: Option<nat>,
                                                         body: seq<Node>, commit: bool, bad: set<Elem>)
    requires Inv(s)
    requires var b := ExecAll(Open(s), Some(Frame(s, limit)), body, bad);
             b.ending == Unwinding || (!commit && b.ending == Returned)
    ensures var b := ExecAll(Open(s), Some(Frame(s, limit)), body, bad);
            var r := Exec(s, f, Scope(limit, body, commit), bad);
            Unwound(s, b.s, b.ending, r.s, r.ending, bad)
  {
    OpenIsSound(s);
    ExecAllIsLawful(Open(s), Some(Frame(s, limit)), body, bad);
    RollbackIsLawful(s, ExecAll(Open(s), Some(Frame(s, limit)), body, bad), bad);
  }

  // ----- the reading of a tree --------------------------------------------------------------------

  /** The regions a tree keeps, how control leaves it, and the events it has not used. */
  datatype Reading = Reading(kept: seq<Region>, ending: Ending, rest: seq<Event>)

  /**
   The reference, which knows no arena: a tree read along its events. A granted region is kept if
   every scope around it commits; a scope that is rolled back keeps nothing, unless a destructor
   panics: its regions then stay, and owe no destructor any more.
   */
  function Read(n: Node, log: seq<Event>): Reading
    decreases n, 1
  {
    match n
    case Panic => Reading([], Unwinding, log)
    case Do(_, _, _) => if log == [] then Reading([], Returned, []) else ReadRequest(log[0], log[1..])
    case Catch(body) =>
      var b := ReadAll(body, log);
      if b.ending == Unwinding then b.(ending := Returned) else b
    case Infallible(_, body) => ReadAll(body, log)
    case Scope(_, body, commit) =>
      var b := ReadAll(body, log);
      if b.ending == Aborted || b.rest == [] || (commit && b.ending == Returned) then b
      else ReadRollback(b.kept, b.ending, b.rest[0], b.rest[1..])
  }

  function ReadRequest(e: Event, rest: seq<Event>): Reading {
    match e
    case Grant(r) => Reading([r], Returned, rest)
    case NoRegion(panicked) => Reading([], if panicked then Unwinding else Returned, rest)
    case Dropping(_) => Reading([], Returned, rest)
  }

  function ReadRollback(kept: seq<Region>, ending: Ending, e: Event, rest: seq<Event>): Reading {
    if e == Dropping(true) then Reading(Forget(kept, 0), if ending == Unwinding then Aborted else Unwinding, rest)
    else Reading([], ending, rest)
  }

  function ReadAll(body: seq<Node>, log: seq<Event>): Reading
    decreases body, 0
  {
    if |body| == 0 then Reading([], Returned, log)
    else
      var r := Read(body[0], log);
      if r.ending != Returned then r
      else
        var q := ReadAll(body[1..], r.rest);
        Reading(r.kept + q.kept, q.ending, q.rest)
  }

  /** Regions that became live between two states. */
  function Gained(s: State, t: State): seq<Region> {
    if |s.live| <= |t.live| then t.live[|s.live|..] else []
  }

  /**
   The events of a run, read along the tree, give exactly the regions gained and the ending; `more`
   are events of what runs later.
   */
  lemma {:induction false} RunIsRead(s: State, f: Option<Frame>, n: Node, bad: set<Elem>, more: seq<Event>)
    requires Wellformed(s)
    ensures var r := Exec(s, f, n, bad);
            s.live <= r.s.live && Read(n, r.log + more) == Reading(Gained(s, r.s), r.ending, more)
    decreases n, 1
  {
    NodeKeeps(s, f, n, bad);
    match n
    case Panic => assert [] + more == more;
    case Do(r, os, budgeted) => RequestIsRead(s, f, r, os, budgeted, bad, more);
    case Catch(body) => BodyIsRead(s, f, body, bad, more);
    case Infallible(limit, body) =>
      OpenIsFramed(s, limit);
      BodyIsRead(Open(s), Some(Frame(s, limit)), body, bad, more);
    case Scope(limit, body, commit) =>
      OpenIsFramed(s, limit);
      var b := ExecAll(Open(s), Some(Frame(s, limit)), body, bad);
      BodyIsRead(Open(s), Some(Frame(s, limit)), body, bad, more);
      if b.ending == Unwinding || (!commit && b.ending == Returned) {
        RollbackIsRead(s, f, limit, body, commit, bad, more);
      }
  }

  lemma {:induction false} BodyIsRead(s: State, f: Option<Frame>, body: seq<Node>, bad: set<Elem>, more: seq<Event>)
    requires Wellformed(s)
    ensures var r := ExecAll(s, f, body, bad);
            s.live <= r.s.live && ReadAll(body, r.log + more) == Reading(Gained(s, r.s), r.ending, more)
    decreases body, 0
  {
    if |body| == 0 {
      assert [] + more == more;
    } else {
      var r := Exec(s, f, body[0], bad);
      NodeKeeps(s, f, body[0], bad);
      if r.ending != Returned {
        RunIsRead(s, f, body[0], bad, more);
      } else {
        var q := ExecAll(r.s, f, body[1..], bad);
        RunIsRead(s, f, body[0], bad, q.log + more);
        BodyIsRead(r.s, f, body[1..], bad, more);
        ConcatAssociative(r.log, q.log, more);
        GainedTwice(s, r.s, q.s);
      }
    }
  }

  lemma {:induction false} GainedTwice(s: State, t: State, u: State)
    requires s.live <= t.live && t.live <= u.live
    ensures Gained(s, u) == Gained(s, t) + Gained(t, u)
  {}

  lemma {:induction false} RequestIsRead(s: State, f: Option<Frame>, r: Request, os: Option<nat>, budgeted: bool,
                                         bad: set<Elem>, more: seq<Event>)
    requires Wellformed(s)
    ensures var q := Exec(s, f, Do(r, os, budgeted), bad);
            Read(Do(r, os, budgeted), q.log + more) == Reading(Gained(s, q.s), q.ending, more)
  {
    WellformedMeans(s);
    var q := Exec(s, f, Do(r, os, budgeted), bad);
    RequestGains(s, f, r, os, budgeted, bad);
    assert |q.log| == 1 && (q.log + more)[1..] == more && (q.log + more)[0] == q.log[0];
  }

  /** A request gains the region it is granted, if any. */
  lemma {:induction false} RequestGains(s: State, f: Option<Frame>, r: Request, os: Option<nat>, budgeted: bool,
                                        bad: set<Elem>)
    requires Inv(s)
    ensures var q := Exec(s, f, Do(r, os, budgeted), bad);
            && |q.log| == 1
            && match q.log[0]
               case Grant(region) => q.s.live == s.live + [region] && q.ending == Returned
               case NoRegion(panicked) => q.s.live == s.live && q.ending == PanicIf(panicked)
               case Dropping(_) => false
  {
    if ValidAlign(r.align) && r.size > 0 {
      var answer := if OsOk(s, r.size, r.align, os) then os else None;
      ServeMeaning(s, r, answer);
      var (t, out) := Serve(s, r, answer);
      ServedGains(s, t, out, r);
    }
  }

  lemma {:induction false} ServedGains(s: State, t: State, out: Outcome, r: Request)
    requires r.align > 0 && Effect(s, t, out, r.size, r.align)
    ensures if out.Placed? then t.live != [] && t.live == s.live + [t.live[|t.live| - 1]] else t.live == s.live
  {}

  lemma {:induction false} RollbackIsRead(s: State, f: Option<Frame>, limit: Option<nat>, body: seq<Node>, commit: bool,
                                          bad: set<Elem>, more: seq<Event>)
    requires Wellformed(s)
    requires var b := ExecAll(Open(s), Some(Frame(s, limit)), body, bad);
             b.ending == Unwinding || (!commit && b.ending == Returned)
    ensures var r := Exec(s, f, Scope(limit, body, commit), bad);
            Read(Scope(limit, body, commit), r.log + more) == Reading(Gained(s, r.s), r.ending, more)
    decreases Scope(limit, body, commit), 0
  {
    var b := ExecAll(Open(s), Some(Frame(s, limit)), body, bad);
    var r := Exec(s, f, Scope(limit, body, commit), bad);
    OpenIsFramed(s, limit);
    WellformedMeans(s);
    UncommittedScopeLeavesNoTrace(s, f, limit, body, commit, bad);
    ScopeLog(s, f, limit, body, commit, bad);
    var e := Dropping(!NoPanic(b.s, |s.slots|, bad));
    BodyIsRead(Open(s), Some(Frame(s, limit)), body, bad, [e] + more);
    ConcatAssociative(b.log, [e], more);
    assert ([e] + more)[1..] == more;
    RollbackGains(s, b.s, b.ending, r.s, r.ending, bad);
  }

  /** A rollback appends one event to those of its body. */
  lemma {:induction false} ScopeLog(s: State, f: Option<Frame>, limit: Option<nat>, body: seq<Node>, commit: bool,
                                    bad: set<Elem>)
    requires Inv(s)
    requires var b := ExecAll(Open(s), Some(Frame(s, limit)), body, bad);
             b.ending == Unwinding || (!commit && b.ending == Returned)
    ensures var b := ExecAll(Open(s), Some(Frame(s, limit)), body, bad);
            Exec(s, f, Scope(limit, body, commit), bad).log == b.log + [Dropping(!NoPanic(b.s, |s.slots|, bad))]
  {
    OpenIsSound(s);
    ExecAllIsLawful(Open(s), Some(Frame(s, limit)), body, bad);
    RollbackIsLawful(s, ExecAll(Open(s), Some(Frame(s, limit)), body, bad), bad);
  }

  lemma {:induction false} RollbackGains(s: State, d: State, ending: Ending, t: State, end: Ending, bad: set<Elem>)
    requires s.live <= d.live && Unwound(s, d, ending, t, end, bad)
    ensures s.live <= t.live
    ensures Gained(s, t) == if NoPanic(d, |s.slots|, bad) then [] else Forget(Gained(s, d), 0)
  {}

  /**
   What survives is what the reading keeps: the live regions after any tree are the old ones
   followed by those granted on paths where every scope commits, and those of rollbacks cut short.
   */
  lemma {:induction false} SurvivorsAreRead(s: State, f: Option<Frame>, n: Node, bad: set<Elem>)
    requires Wellformed(s)
    ensures var r := Exec(s, f, n, bad);
            var reading := Read(n, r.log);
            r.s.live == s.live + reading.kept && r.ending == reading.ending && reading.rest == []
  {
    RunIsRead(s, f, n, bad, []);
    assert Exec(s, f, n, bad).log + [] == Exec(s, f, n, bad).log;
  }

  // ----- depth ------------------------------------------------------------------------------------

  /** Wherever a node of the tree is executed, the depth counter is the number of scopes open there. */
  ghost predicate DepthsTrack(s: State, f: Option<Frame>, n: Node, bad: set<Elem>, scopes: nat)
    decreases n, 1
  {
    && s.depth == scopes
    && match n
       case Panic => true
       case Do(_, _, _) => true
       case Catch(body) => AllDepthsTrack(s, f, body, bad, scopes)
       case Infallible(limit, body) => AllDepthsTrack(Open(s), Some(Frame(s, limit)), body, bad, scopes + 1)
       case Scope(limit, body, _) => AllDepthsTrack(Open(s), Some(Frame(s, limit)), body, bad, scopes + 1)
  }

  ghost predicate AllDepthsTrack(s: State, f: Option<Frame>, body: seq<Node>, bad: set<Elem>, scopes: nat)
    decreases body, 0
  {
    |body| == 0 ||
    (&& DepthsTrack(s, f, body[0], bad, scopes)
     && (var r := Exec(s, f, body[0], bad); r.ending != Returned || AllDepthsTrack(r.s, f, body[1..], bad, scopes)))
  }

  lemma {:induction false} DepthIsScopeCount(s: State, f: Option<Frame>, n: Node, bad: set<Elem>)
    requires Wellformed(s)
    ensures DepthsTrack(s, f, n, bad, s.depth)
    decreases n, 1
  {
    match n
    case Panic =>
    case Do(_, _, _) =>
    case Catch(body) => DepthsAreScopeCounts(s, f, body, bad);
    case Infallible(limit, body) =>
      OpenIsFramed(s, limit);
      DepthsAreScopeCounts(Open(s), Some(Frame(s, limit)), body, bad);
    case Scope(limit, body, _) =>
      OpenIsFramed(s, limit);
      DepthsAreScopeCounts(Open(s), Some(Frame(s, limit)), body, bad);
  }

  lemma {:induction false} DepthsAreScopeCounts(s: State, f: Option<Frame>, body: seq<Node>, bad: set<Elem>)
    requires Wellformed(s)
    ensures AllDepthsTrack(s, f, body, bad, s.depth)
    decreases body, 0
  {
    if |body| > 0 {
      DepthIsScopeCount(s, f, body[0], bad);
      NodeKeeps(s, f, body[0], bad);
      var r := Exec(s, f, body[0], bad);
      if r.ending == Returned {
        DepthsAreScopeCounts(r.s, f, body[1..], bad);
      }
    }
  }

  lemma NodeKeeps(s: State, f: Option<Frame>, n: Node, bad: set<Elem>)
    requires Wellformed(s)
    ensures var r := Exec(s, f, n, bad);
            Wellformed(r.s) && Since(s, r.s) && (r.ending != Aborted ==> r.s.depth == s.depth)
  {
    WellformedMeans(s);
    ExecIsLawful(s, f, n, bad);
    LawfulMeans(s, Exec(s, f, n, bad));
    WellformedMeans(Exec(s, f, n, bad).s);
  }

  // ----- budgets ---------------------------------------------------------------------------------

  lemma {:induction false} PayloadConcat(a: seq<Region>, b: seq<Region>)
    ensures Payload(a + b) == Payload(a) + Payload(b) && Entering(a + b) == Entering(a) + Entering(b)
    decreases |b|
  {
    if b == [] {
      assert a + b == a;
    } else {
      assert (a + b)[..|a + b| - 1] == a + b[..|b| - 1];
      PayloadConcat(a, b[..|b| - 1]);
    }
  }

  /**
   Above its opening a transaction's `bytes_used` never saturates, and it covers the payload of
   every region live since then.
   */
  lemma BytesUsedCoversPayload(m: State, s: State)
    requires Inv(m) && Inv(s) && Since(m, s)
    ensures Reported(m) <= Reported(s)
    ensures Payload(s.live[|m.live|..]) <= Reported(s) - Reported(m) == BytesUsed(s, m)
  {
    assert s.live == m.live + s.live[|m.live|..];
    PayloadConcat(m.live, s.live[|m.live|..]);
  }

  lemma NeverSaturates(m: State, s: State)
    requires Wellformed(m) && Wellformed(s) && Since(m, s)
    ensures Reported(m) <= Reported(s)
  {
    WellformedMeans(m);
    WellformedMeans(s);
    BytesUsedCoversPayload(m, s);
  }

  /** Live payload is a machine word, so no budget is beyond reach of the saturating sum. */
  lemma PayloadIsWord(m: State, s: State)
    requires Inv(s) && m.live <= s.live
    ensures Payload(s.live[|m.live|..]) <= USIZE_MAX
  {
    ReservedIsWord(s);
    InUseWithinReserved(s);
    PayloadIsInUse(s);
    assert s.live == m.live + s.live[|m.live|..];
    PayloadConcat(m.live, s.live[|m.live|..]);
  }

  /** The guarantee at one grant: all payload live since the opening is within the limit. */
  lemma GrantWithinLimit(f: Frame, s: State, r: Request, os: Option<nat>)
    requires Wellformed(f.origin) && Wellformed(s) && Shape(s) && Since(f.origin, s)
    requires f.limit.Some? && BudgetOk(s, f, r.size)
    ensures var q := Allocate(s, r, os);
            Granted(q.log) ==> |f.origin.live| <= |q.s.live| && Payload(q.s.live[|f.origin.live|..]) <= f.limit.value
  {
    var m := f.origin;
    WellformedMeans(m);
    WellformedMeans(s);
    BytesUsedCoversPayload(m, s);
    AllocateGrows(s, r, os);
    var q := Allocate(s, r, os);
    if Granted(q.log) {
      var n := |m.live|;
      assert q.s.live[n..] == s.live[n..] + [q.log[0].region];
      LivePush(s.live[n..], q.log[0].region);
      AllocateIsLawful(s, r, os);
      LawfulMeans(s, q);
      PayloadIsWord(m, q.s);
    }
  }

  /**
   Padding, and the second count of a request that enters another block, are not pre-checked: after
   a grant `bytes_used` is within a bound if and only if `bytes_used` before it plus the true cost is.
   */
  lemma LimitKeptExactly(f: Frame, s: State, size: nat, align: nat, fallible: bool, os: Option<nat>, limit: nat)
    requires Wellformed(f.origin) && Wellformed(s) && Shape(s) && Since(f.origin, s)
    requires size > 0 && ValidAlign(align) && OsOk(s, size, align, os)
    ensures var t := Alloc(s, size, align, fallible, os).0;
            Grants(s, size, align, fallible, os) ==>
              (BytesUsed(t, f.origin) <= limit <==> BytesUsed(s, f.origin) + Cost(s, size, align) <= limit)
  {
    NeverSaturates(f.origin, s);
    RequestCounts(s, size, align, fallible, os);
  }

  /** So a granted request passes its limit by less than the alignment, or by at most its size. */
  lemma OvershootIsBounded(f: Frame, s: State, size: nat, align: nat, fallible: bool, os: Option<nat>)
    requires Wellformed(f.origin) && Wellformed(s) && Shape(s) && Since(f.origin, s)
    requires size > 0 && ValidAlign(align) && OsOk(s, size, align, os)
    requires f.limit.Some? && f.limit.value < USIZE_MAX && BudgetOk(s, f, size)
    ensures var t := Alloc(s, size, align, fallible, os).0;
            Grants(s, size, align, fallible, os) ==> BytesUsed(t, f.origin) <= f.limit.value + Max(align - 1, size)
  {
    LimitKeptExactly(f, s, size, align, fallible, os, f.limit.value + Max(align - 1, size));
  }

  /** Under a limit of 9 bytes, one byte and then eight bytes at alignment 8 leave 16 bytes used. */
  lemma LimitCanBeExceeded(base: nat)
    requires FreshBlock([], base, 64, 64)
    ensures var m := WithCapacity(64, base);
            var f := Frame(m, Some(9));
            var s := Alloc(m, 1, 1, false, None).0;
            var t := Alloc(s, 8, 8, false, None).0;
            Shape(s) && BudgetOk(m, f, 1) && BudgetOk(s, f, 8) && BytesUsed(t, m) == 16
  {
    var m := WithCapacity(64, base);
    WithCapacityInv(64, base);
    ByteBump(m);
    assert IsPow2(8);
    AlignedDown(base, 64, 8);
    RoundUpShift(base, 1, 8);
  }

  lemma AllocateGrows(s: State, r: Request, os: Option<nat>)
    requires Inv(s)
    ensures var q := Allocate(s, r, os);
            Granted(q.log) ==> q.s.live == s.live + [q.log[0].region] && q.log[0].region.size == r.size
  {
    if ValidAlign(r.align) && r.size > 0 {
      var answer := if OsOk(s, r.size, r.align, os) then os else None;
      ServeMeaning(s, r, answer);
      var (t, out) := Serve(s, r, answer);
      if out.Placed? {
        ServedGrows(s, t, out, r);
      }
    }
  }

  lemma ServedGrows(s: State, t: State, out: Outcome, r: Request)
    requires r.align > 0 && Effect(s, t, out, r.size, r.align) && out.Placed?
    ensures |t.live| == |s.live| + 1 && t.live == s.live + [t.live[|t.live| - 1]] && t.live[|t.live| - 1].size == r.size
  {}

  predicate Granted(log: seq<Event>) {
    log != [] && log[0].Grant?
  }

  /** Every budgeted grant anywhere in the tree respects the limit of its innermost transaction. */
  ghost predicate BudgetsHold(s: State, f: Option<Frame>, n: Node, bad: set<Elem>)
    decreases n, 1
  {
    match n
    case Do(r, os, budgeted) =>
      var q := Exec(s, f, n, bad);
      budgeted && f.Some? && f.value.limit.Some? && Granted(q.log) ==>
        && |f.value.origin.live| <= |q.s.live|
        && Payload(q.s.live[|f.value.origin.live|..]) <= f.value.limit.value
    case Panic => true
    case Catch(body) => AllBudgetsHold(s, f, body, bad)
    case Infallible(limit, body) => AllBudgetsHold(Open(s), Some(Frame(s, limit)), body, bad)
    case Scope(limit, body, _) => AllBudgetsHold(Open(s), Some(Frame(s, limit)), body, bad)
  }

  ghost predicate AllBudgetsHold(s: State, f: Option<Frame>, body: seq<Node>, bad: set<Elem>)
    decreases body, 0
  {
    |body| == 0 ||
    (&& BudgetsHold(s, f, body[0], bad)
     && (var r := Exec(s, f, body[0], bad); r.ending != Returned || AllBudgetsHold(r.s, f, body[1..], bad)))
  }

  ghost predicate FrameOk(s: State, f: Option<Frame>) {
    f.Some? ==> Wellformed(f.value.origin) && Since(f.value.origin, s)
  }

  lemma OpenIsFramed(s: State, limit: Option<nat>)
    requires Wellformed(s)
    ensures Wellformed(Open(s)) && FrameOk(Open(s), Some(Frame(s, limit)))
  {
    WellformedMeans(s);
    OpenIsSound(s);
    WellformedMeans(Open(s));
  }

  /** No tree, however nested, ever grants past a limit. */
  lemma {:induction false} BudgetGuarantee(s: State, f: Option<Frame>, n: Node, bad: set<Elem>)
    requires Wellformed(s) && FrameOk(s, f)
    ensures BudgetsHold(s, f, n, bad)
    decreases n, 1
  {
    match n
    case Do(r, os, budgeted) =>
      if budgeted && f.Some? && f.value.limit.Some? && BudgetOk(s, f.value, r.size) {
        WellformedMeans(s);
        GrantWithinLimit(f.value, s, r, os);
      }
    case Panic =>
    case Catch(body) => AllBudgetsGuarantee(s, f, body, bad);
    case Infallible(limit, body) =>
      OpenIsFramed(s, limit);
      AllBudgetsGuarantee(Open(s), Some(Frame(s, limit)), body, bad);
    case Scope(limit, body, commit) =>
      OpenIsFramed(s, limit);
      AllBudgetsGuarantee(Open(s), Some(Frame(s, limit)), body, bad);
  }

  lemma {:induction false} AllBudgetsGuarantee(s: State, f: Option<Frame>, body: seq<Node>, bad: set<Elem>)
    requires Wellformed(s) && FrameOk(s, f)
    ensures AllBudgetsHold(s, f, body, bad)
    decreases body, 0
  {
    if |body| > 0 {
      BudgetGuarantee(s, f, body[0], bad);
      NodeKeeps(s, f, body[0], bad);
      var r := Exec(s, f, body[0], bad);
      if f.Some? {
        SinceTransitive(f.value.origin, s, r.s);
      }
      if r.ending == Returned {
        AllBudgetsGuarantee(r.s, f, body[1..], bad);
      }
    }
  }

  // ----- which requests the budget denies ---------------------------------------------------------

  /** A request through the arena itself, or unbudgeted, is the arena's own request and nothing else. */
  lemma {:induction false} UnbudgetedIsServe(s: State, f: Option<Frame>, r: Request, os: Option<nat>, bad: set<Elem>)
    requires Wellformed(s) && Shape(s)
    ensures var q := Exec(s, f, Do(r, os, false), bad);
            if !ValidAlign(r.align) then q == Result(s, [NoRegion(true)], Unwinding)
            else if r.size == 0 then q == Result(s, [NoRegion(false)], Returned)
            else if OsOk(s, r.size, r.align, os) then
              var (t, out) := Serve(s, r, os);
              && q.s == t && q.ending == (if out.Panicked? then Unwinding else Returned)
              && if out.Placed? then t.live != [] && q.log == [Grant(t.live[|t.live| - 1])]
                 else q.log == [NoRegion(out.Panicked?)]
            else q == Exec(s, f, Do(r, None, false), bad)
  {
    WellformedMeans(s);
    if ValidAlign(r.align) && r.size > 0 && OsOk(s, r.size, r.align, os) {
      ServeMeaning(s, r, os);
      ServedGains(s, Serve(s, r, os).0, Serve(s, r, os).1, r);
    }
  }

  /** A transaction without a limit denies nothing. */
  lemma {:induction false} NoLimitNoCheck(s: State, f: Frame, r: Request, os: Option<nat>, bad: set<Elem>)
    requires f.limit.None?
    ensures Exec(s, Some(f), Do(r, os, true), bad) == Exec(s, Some(f), Do(r, os, false), bad)
  {}

  /** Nor is anything denied outside a transaction. */
  lemma {:induction false} NoTransactionNoCheck(s: State, r: Request, os: Option<nat>, bad: set<Elem>)
    ensures Exec(s, None, Do(r, os, true), bad) == Exec(s, None, Do(r, os, false), bad)
  {}

  /**
   A limit denies exactly the requests whose size, added to the bytes reported since the opening,
   passes it. The greatest machine word as a limit denies nothing, because the sum saturates there.
   A denied request changes nothing; it panics if it is infallible and fails if it is fallible.
   */
  lemma {:induction false} DeniedExactly(s: State, f: Frame, r: Request, os: Option<nat>, bad: set<Elem>)
    requires Wellformed(f.origin) && Wellformed(s) && Shape(s) && Since(f.origin, s)
    requires f.limit.Some? && f.limit.value <= USIZE_MAX
    ensures var q := Exec(s, Some(f), Do(r, os, true), bad);
            if Reported(s) - Reported(f.origin) + r.size > f.limit.value && f.limit.value < USIZE_MAX
            then q == Result(s, [NoRegion(!r.fallible)], if r.fallible then Returned else Unwinding)
            else q == Exec(s, Some(f), Do(r, os, false), bad)
  {
    NeverSaturates(f.origin, s);
  }

  /** `diff` counts the blocks from the opening's on, and everything live since lies in one of them. */
  lemma {:induction false} TouchedBlocks(m: State, s: State)
    requires Wellformed(m) && Wellformed(s) && Since(m, s)
    ensures s.current < |s.blocks| && m.current <= s.current
    ensures BlocksTouched(s, m) == |s.blocks[m.current..s.current + 1]|
    ensures forall k :: |m.live| <= k < |s.live| ==> m.current <= s.live[k].blk <= s.current
  {
    WellformedMeans(m);
    WellformedMeans(s);
    forall k | |m.live| <= k < |s.live| ensures m.current <= s.live[k].blk <= s.current {
      assert InBlock(s, s.live[k]);
      if m.live != [] {
        assert Ordered(s.live, |m.live| - 1, k);
        assert s.live[|m.live| - 1] == m.live[|m.live| - 1];
      }
    }
  }

  // ----- admissible answers ----------------------------------------------------------------------

  /** Every answer of the system allocator that the execution of `n` asks for is admissible. */
  ghost predicate AnswersOk(s: State, f: Option<Frame>, n: Node, bad: set<Elem>)
    decreases n, 1
  {
    match n
    case Panic => true
    case Do(r, os, _) => ValidAlign(r.align) && r.size > 0 ==> OsOk(s, r.size, r.align, os)
    case Catch(body) => AllAnswersOk(s, f, body, bad)
    case Infallible(limit, body) => AllAnswersOk(Open(s), Some(Frame(s, limit)), body, bad)
    case Scope(limit, body, _) => AllAnswersOk(Open(s), Some(Frame(s, limit)), body, bad)
  }

  ghost predicate AllAnswersOk(s: State, f: Option<Frame>, body: seq<Node>, bad: set<Elem>)
    decreases body, 0
  {
    |body| == 0 ||
    (&& AnswersOk(s, f, body[0], bad)
     && (var r := Exec(s, f, body[0], bad); r.ending != Returned || AllAnswersOk(r.s, f, body[1..], bad)))
  }
}

/**
 The inline-then-heap vector of src/util/inline_vec.rs.

 The storage union holds one buffer at a time: the inline array while `onHeap` is false, the
 heap buffer afterwards. The vector refines the plain sequence `Contents()`.
 */
module InlineVecs {
  import opened Bits
  import opened Wrappers

  method CopyElements<T>(src: array<T>, dst: array<T>, n: nat)
    requires src != dst && n <= src.Length && n <= dst.Length
    modifies dst
    ensures dst[..n] == src[..n]
  {
    for i := 0 to n
      invariant dst[..i] == src[..i]
    {
      dst[i] := src[i];
    }
  }

  /** `n` doubled `k` times. */
  function Doubled(n: nat, k: nat): nat {
    if k == 0 then n else 2 * Doubled(n, k - 1)
  }

  lemma {:induction false} DoubledIsProduct(n: nat, k: nat)
    ensures Doubled(n, k) == n * Pow2(k)
  {
    if k > 0 {
      DoubledIsProduct(n, k - 1);
      assert n * Pow2(k) == 2 * (n * Pow2(k - 1));
    }
  }

  class InlineVec<T(0)> {
    const N: nat
    var data: array<T>
    var len: nat
    var onHeap: bool
    ghost var doublings: nat  // heap buffers allocated so far
    ghost var copied: nat     // elements moved by promotion and heap growth so far
    ghost var Repr: set<object>

    ghost predicate Valid()
      reads this, Repr
      ensures Valid() ==> this in Repr
    {
      && Repr == {this, data}
      && N > 0
      && len <= data.Length
      && data.Length == Doubled(N, doublings)
      && (onHeap <==> doublings > 0)
      && copied + N <= data.Length
    }

    ghost function Contents(): seq<T>
      requires Valid()
      reads this, Repr
    {
      data[..len]
    }

    constructor (n: nat)
      requires n > 0
      ensures Valid() && fresh(Repr)
      ensures N == n && Contents() == [] && !onHeap && copied == 0
    {
      N := n;
      data := new T[n];
      len := 0;
      onHeap := false;
      doublings := 0;
      copied := 0;
      new;
      Repr := {this, data};
    }

    method Len() returns (n: nat)
      requires Valid()
      ensures n == |Contents()|
    {
      n := len;
    }

    /** Stays inline, or on the present heap buffer, whenever there is room there. */
    method Push(val: T)
      requires Valid()
      modifies Repr
      ensures Valid() && fresh(Repr - old(Repr))
      ensures Contents() == old(Contents()) + [val]
      ensures copied == old(copied) + if old(len) == old(data.Length) then old(len) else 0
      ensures data.Length == if old(len) == old(data.Length) then 2 * old(data.Length) else old(data.Length)
    {
      if !onHeap && len < N {
        data[len] := val;
        len := len + 1;
        return;
      }
      PushSlow(val);
    }

    method PushSlow(val: T)
      requires Valid()
      requires onHeap || len == N
      modifies Repr
      ensures Valid() && fresh(Repr - old(Repr))
      ensures Contents() == old(Contents()) + [val]
      ensures copied == old(copied) + if old(len) == old(data.Length) then old(len) else 0
      ensures data.Length == if old(len) == old(data.Length) then 2 * old(data.Length) else old(data.Length)
    {
      if onHeap {
        if len == data.Length {
          HeapGrow();
        }
        data[len] := val;
        len := len + 1;
      } else {
        PromoteAndPush(val);
      }
    }

    /** Moves the inline elements to a heap buffer of twice the inline capacity. */
    method PromoteAndPush(val: T)
      requires Valid() && !onHeap && len == N
      modifies Repr
      ensures Valid() && fresh(Repr - old(Repr)) && onHeap
      ensures Contents() == old(Contents()) + [val]
      ensures data.Length == 2 * N && copied == old(copied) + N
    {
      var buf := new T[N * 2];
      CopyElements(data, buf, N);
      copied := copied + N;
      data := buf;
      onHeap := true;
      doublings := 1;
      Repr := {this, data};
      data[len] := val;
      len := len + 1;
    }

    /** Doubles the heap buffer and moves every element across. */
    method HeapGrow()
      requires Valid() && onHeap && len == data.Length
      modifies Repr
      ensures Valid() && fresh(Repr - old(Repr)) && onHeap
      ensures Contents() == old(Contents()) && len == old(len)
      ensures data.Length == 2 * old(data.Length) && copied == old(copied) + old(len)
    {
      var buf := new T[data.Length * 2];
      CopyElements(data, buf, len);
      copied := copied + len;
      data := buf;
      doublings := doublings + 1;
      Repr := {this, data};
    }

    method Pop() returns (r: Option<T>)
      requires Valid()
      modifies Repr
      ensures Valid() && fresh(Repr - old(Repr))
      ensures old(Contents()) == [] ==> r == None && Contents() == []
      ensures old(Contents()) != [] ==> r.Some? && old(Contents()) == Contents() + [r.value]
      ensures data == old(data) && copied == old(copied)
    {
      if len == 0 {
        return None;
      }
      len := len - 1;
      r := Some(data[len]);
    }

    method Get(i: nat) returns (x: T)
      requires Valid() && i < |Contents()|
      ensures x == Contents()[i]
    {
      x := data[i];
    }

    /** A write through `get_mut`. */
    method Set(i: nat, x: T)
      requires Valid() && i < |Contents()|
      modifies Repr
      ensures Valid() && Repr == old(Repr)
      ensures Contents() == old(Contents())[i := x]
    {
      data[i] := x;
    }

    method AsSlice() returns (s: seq<T>)
      requires Valid()
      ensures s == Contents()
    {
      s := data[..len];
    }

    /**
     Storage law in every valid state: inline means at most `N` elements and no copies yet;
     on the heap the capacity is `N * 2^k` with `k >= 1`, it covers the length, and all copies
     ever made are fewer than it.
     */
    lemma StorageLaw()
      requires Valid()
      ensures !onHeap ==> |Contents()| <= N && data.Length == N && copied == 0
      ensures onHeap ==> exists k :: k >= 1 && data.Length == N * Pow2(k)
      ensures |Contents()| <= data.Length && copied < data.Length
    {
      if onHeap {
        DoubledIsProduct(N, doublings);
        assert doublings >= 1 && data.Length == N * Pow2(doublings);
      }
    }
  }

  // ----- whole runs -------------------------------------------------------------------------------

  datatype VecOp<T> = PushOp(x: T) | PopOp | SetOp(i: nat, y: T) | GetOp(j: nat)

  function Apply<T>(s: seq<T>, op: VecOp<T>): seq<T> {
    match op
    case PushOp(x) => s + [x]
    case PopOp => if s == [] then s else s[..|s| - 1]
    case SetOp(i, y) => if i < |s| then s[i := y] else s
    case GetOp(_) => s
  }

  /** The value an operation hands back; none for a read past the end, which panics. */
  function Answer<T>(s: seq<T>, op: VecOp<T>): Option<T> {
    match op
    case PopOp => if s == [] then None else Some(s[|s| - 1])
    case GetOp(j) => if j < |s| then Some(s[j]) else None
    case _ => None
  }

  function ApplyAll<T>(s: seq<T>, ops: seq<VecOp<T>>): seq<T>
    decreases |ops|
  {
    if ops == [] then s else Apply(ApplyAll(s, ops[..|ops| - 1]), ops[|ops| - 1])
  }

  /** What a sequence hands back along a run. */
  function Answers<T>(s: seq<T>, ops: seq<VecOp<T>>): (answers: seq<Option<T>>)
    ensures |answers| == |ops|
    decreases |ops|
  {
    if ops == [] then []
    else
      var before := ops[..|ops| - 1];
      Answers(s, before) + [Answer(ApplyAll(s, before), ops[|ops| - 1])]
  }

  /** One operation; a read or write past the end would panic and is skipped. */
  method Do<T(0)>(v: InlineVec<T>, op: VecOp<T>) returns (answer: Option<T>)
    requires v.Valid()
    modifies v.Repr
    ensures v.Valid() && fresh(v.Repr - old(v.Repr))
    ensures v.Contents() == Apply(old(v.Contents()), op) && answer == Answer(old(v.Contents()), op)
  {
    answer := None;
    var n := v.Len();
    match op {
      case PushOp(x) => v.Push(x);
      case PopOp => answer := v.Pop();
      case SetOp(i, y) =>
        if i < n {
          v.Set(i, y);
        }
      case GetOp(j) =>
        if j < n {
          var x := v.Get(j);
          answer := Some(x);
        }
    }
  }

  /** Any run of operations, across promotion and every heap doubling, acts and answers as a sequence. */
  method RunOps<T(0)>(v: InlineVec<T>, ops: seq<VecOp<T>>) returns (answers: seq<Option<T>>)
    requires v.Valid()
    modifies v.Repr
    ensures v.Valid() && fresh(v.Repr - old(v.Repr))
    ensures v.Contents() == ApplyAll(old(v.Contents()), ops) && answers == Answers(old(v.Contents()), ops)
  {
    answers := [];
    for n := 0 to |ops|
      invariant v.Valid() && fresh(v.Repr - old(v.Repr))
      invariant v.Contents() == ApplyAll(old(v.Contents()), ops[..n])
      invariant answers == Answers(old(v.Contents()), ops[..n])
    {
      assert ops[..n + 1][..n] == ops[..n];
      var answer := Do(v, ops[n]);
      answers := answers + [answer];
    }
    assert ops[..|ops|] == ops;
  }
}

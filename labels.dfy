/**
  The label allocator (`LabelManager`): two sets, the available and the used labels,
  that always partition [1, n). `Allocate` and `Release` give the abstract meaning of
  `request` and `free`; the class `LabelManager` updates its sets in place and is
  proved to follow them.
 */
module LabelAllocation {
  import opened Common

  /** The allocator's state: the free labels, the handed-out labels, and the bound n. */
  datatype Pool = Pool(available: set<int>, used: set<int>, n: int)

  /** The allocator invariant: `available` and `used` are disjoint and together are [1, n). */
  ghost predicate Partitioned(p: Pool)
  {
    p.available !! p.used && p.available + p.used == Range(1, p.n)
  }

  /** The state right after construction: every label free, none used. */
  function Initial(n: int): (p: Pool)
    ensures Partitioned(p) && p.used == {} && p.n == n
    ensures forall l :: l in p.available <==> 1 <= l < n
  {
    Pool(Range(1, n), {}, n)
  }

  /** The smallest element of a non-empty set (Python's `min`). */
  ghost function MinOf(s: set<int>): (m: int)
    requires s != {}
    ensures m in s && forall x :: x in s ==> m <= x
  {
    NonEmptyHasElement(s);
    var x :| x in s;
    var rest := s - {x};
    if rest == {} then
      assert forall y :: y in s ==> y == x || y in rest;
      x
    else
      var m' := MinOf(rest);
      assert forall y :: y in s ==> y == x || y in rest;
      if x < m' then x else m'
  }

  /** A least element of a set is the one `MinOf` picks. */
  lemma MinOfUnique(s: set<int>, m: int)
    requires m in s && forall x :: x in s ==> m <= x
    ensures MinOf(s) == m
  {
  }

  /** `request`: hand out the smallest free label, or fail when none is left. */
  ghost function Allocate(p: Pool): (r: Result<(int, Pool)>)
    ensures r.Err? <==> p.available == {}
    ensures r.Err? ==> r.error == OutOfLabels
    ensures r.Ok? ==>
      var (l, q) := r.value;
      l in p.available && (forall x :: x in p.available ==> l <= x) &&
      q.available == p.available - {l} && q.used == p.used + {l} && q.n == p.n
  {
    if p.available == {} then Err(OutOfLabels)
    else
      var l := MinOf(p.available);
      Ok((l, Pool(p.available - {l}, p.used + {l}, p.n)))
  }

  /** `free`: with no label, reset to the initial state; with a used label, return it to the pool. */
  function Release(p: Pool, freed: Option<int>): (r: Pool)
    ensures r.n == p.n && r.used <= p.used
    ensures freed.None? ==> r.used == {}
    ensures freed.Some? ==> p.available <= r.available && r.available + r.used == p.available + p.used
    ensures freed.Some? && freed.value in p.used ==>
      r.available == p.available + {freed.value} && r.used == p.used - {freed.value}
  {
    match freed
    case None => Initial(p.n)
    case Some(l) => if l in p.used then Pool(p.available + {l}, p.used - {l}, p.n) else p
  }

  /** Applies `Allocate` k times in a row; the first failure is the outcome. */
  ghost function AllocateMany(p: Pool, k: nat): Result<Pool>
    decreases k
  {
    if k == 0 then Ok(p)
    else
      match Allocate(p)
      case Err(e) => Err(e)
      case Ok((_, q)) => AllocateMany(q, k - 1)
  }

  lemma AllocatePreservesPartition(p: Pool)
    requires Partitioned(p) && Allocate(p).Ok?
    ensures Partitioned(Allocate(p).value.1)
  {
  }

  lemma ReleasePreservesPartition(p: Pool, freed: Option<int>)
    requires Partitioned(p)
    ensures Partitioned(Release(p, freed))
  {
  }

  /** Freeing with no argument restores the initial state, whatever came before. */
  lemma ReleaseAllResets(p: Pool)
    ensures Release(p, None) == Initial(p.n)
    ensures Release(p, None).available == Range(1, p.n) && Release(p, None).used == {}
  {
  }

  /** Freeing a label that is not in use changes nothing (no error is raised). */
  lemma ReleaseUnusedIsNoop(p: Pool, l: int)
    requires l !in p.used
    ensures Release(p, Some(l)) == p
  {
  }

  /** Freeing the label just handed out undoes the request. */
  lemma ReleaseUndoesAllocate(p: Pool)
    requires Partitioned(p) && Allocate(p).Ok?
    ensures Release(Allocate(p).value.1, Some(Allocate(p).value.0)) == p
  {
  }

  /** A freed label is handed out again before any larger free label (smallest-first reuse). */
  lemma AllocateReusesFreed(p: Pool, l: int)
    requires Partitioned(p) && l in p.used
    requires forall x :: x in p.available ==> l < x
    ensures Allocate(Release(p, Some(l))).Ok?
    ensures Allocate(Release(p, Some(l))).value.0 == l
  {
  }

  /** From the state where [1, lo) is used, each request hands out the next label in order. */
  lemma {:induction false} AllocateFromSplit(lo: int, n: int)
    requires 1 <= lo < n
    ensures Allocate(Pool(Range(lo, n), Range(1, lo), n)) ==
            Ok((lo, Pool(Range(lo + 1, n), Range(1, lo + 1), n)))
  {
    var p := Pool(Range(lo, n), Range(1, lo), n);
    assert lo in p.available;
    MinOfUnique(p.available, lo);
    assert p.available - {lo} == Range(lo + 1, n);
    assert p.used + {lo} == Range(1, lo + 1);
  }

  /** k requests from the state where [1, lo) is used hand out lo, lo+1, ..., lo+k-1. */
  lemma {:induction false} AllocateManyFromSplit(lo: int, n: int, k: nat)
    requires 1 <= lo <= n && k <= n - lo
    ensures AllocateMany(Pool(Range(lo, n), Range(1, lo), n), k) ==
            Ok(Pool(Range(lo + k, n), Range(1, lo + k), n))
    decreases k
  {
    if k > 0 {
      AllocateFromSplit(lo, n);
      AllocateManyFromSplit(lo + 1, n, k - 1);
    }
  }

  /** The first request on a fresh allocator returns label 1. */
  lemma FirstAllocationIsOne(n: int)
    requires n >= 2
    ensures Allocate(Initial(n)).Ok? && Allocate(Initial(n)).value.0 == 1
  {
    assert Range(1, 1) == {};
    AllocateFromSplit(1, n);
  }

  /** A fresh allocator serves exactly n - 1 requests; the next one fails. */
  lemma {:induction false} CapacityIsNMinusOne(n: int)
    requires n >= 1
    ensures AllocateMany(Initial(n), n - 1).Ok?
    ensures Allocate(AllocateMany(Initial(n), n - 1).value).Err?
  {
    assert Range(1, 1) == {};
    AllocateManyFromSplit(1, n, n - 1);
    assert Range(n, n) == {};
  }

  /** The smallest element of a non-empty set, found by scanning it. */
  method Smallest(s: set<int>) returns (m: int)
    requires s != {}
    ensures m in s && forall x :: x in s ==> m <= x
  {
    NonEmptyHasElement(s);
    m :| m in s;
    var rest := s - {m};
    while rest != {}
      invariant m in s && rest <= s
      invariant forall x :: x in s && x !in rest ==> m <= x
      decreases rest
    {
      NonEmptyHasElement(rest);
      var x :| x in rest;
      if x < m {
        m := x;
      }
      rest := rest - {x};
    }
  }

  /** `LabelManager`: a bounded label allocator whose two sets are updated in place. */
  class LabelManager {
    var available: set<int>
    var used: set<int>
    const n: int

    /** The abstract state of this allocator. */
    function State(): Pool
      reads this
    {
      Pool(available, used, n)
    }

    ghost predicate Valid()
      reads this
    {
      Partitioned(State())
    }

    constructor (n: int)
      ensures Valid() && State() == Initial(n)
    {
      available := Range(1, n);
      used := {};
      this.n := n;
    }

    /** `request`: the smallest free label, moved from available to used; `OutOfLabels` when none is free. */
    method Request() returns (r: Result<int>)
      requires Valid()
      modifies this
      ensures Valid()
      ensures match Allocate(old(State()))
        case Err(e) => r == Err(e) && State() == old(State())
        case Ok(granted) => r == Ok(granted.0) && State() == granted.1
    {
      if available == {} {
        return Err(OutOfLabels);
      }
      var least := Smallest(available);
      MinOfUnique(available, least);
      AllocatePreservesPartition(State());
      available := available - {least};
      used := used + {least};
      r := Ok(least);
    }

    /** `free`: no label resets the allocator; a used label goes back to the pool; any other label is ignored. */
    method Free(freed: Option<int>)
      requires Valid()
      modifies this
      ensures Valid()
      ensures State() == Release(old(State()), freed)
    {
      ReleasePreservesPartition(State(), freed);
      match freed
      case None =>
        used := {};
        available := Range(1, n);
      case Some(l) =>
        if l in used {
          used := used - {l};
          available := available + {l};
        }
    }
  }
}

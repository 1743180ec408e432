/** `partition(elements, counts)`: cut a flat list into consecutive groups
    whose sizes a second list gives. The loader uses it for a geoset's
    primitives (vertex indices grouped per primitive-type entry) and its
    matrix groups (bone indices grouped per group size). */
module Grouping {
  import opened Wire

  /** How many times `range(c)` iterates. */
  function Count(c: int): nat
  {
    if c < 0 then 0 else c
  }

  /** The number of elements all groups take together. */
  function Total(counts: seq<int>): nat
  {
    if counts == [] then 0 else Count(counts[0]) + Total(counts[1..])
  }

  /** Python's `sum(counts)`. */
  function Sum(counts: seq<int>): int
  {
    if counts == [] then 0 else counts[0] + Sum(counts[1..])
  }

  function Concat<T>(gs: seq<seq<T>>): seq<T>
  {
    if gs == [] then [] else gs[0] + Concat(gs[1..])
  }

  /** `gs` in front of every group list of `r`. */
  function Prepend<T>(gs: seq<seq<T>>, r: Option<seq<seq<T>>>): Option<seq<seq<T>>>
  {
    match r
    case None => None
    case Some(hs) => Some(gs + hs)
  }

  /** The groups `partition` yields for `counts` when it starts at element
      `i`; None for the IndexError of running out of elements. */
  function PartitionFrom<T>(elements: seq<T>, counts: seq<int>, i: nat): Option<seq<seq<T>>>
    decreases |counts|
  {
    if counts == [] then Some([])
    else
      var n := Count(counts[0]);
      if i + n > |elements| then None
      else Prepend([elements[i..i + n]], PartitionFrom(elements, counts[1..], i + n))
  }

  /** `list(partition(elements, counts))`. */
  function Partition<T>(elements: seq<T>, counts: seq<int>): Option<seq<seq<T>>>
  {
    PartitionFrom(elements, counts, 0)
  }

  /** The generator's two loops, run to the end. */
  method PartitionGroups<T>(elements: seq<T>, counts: seq<int>) returns (r: Option<seq<seq<T>>>)
    ensures r == Partition(elements, counts)
  {
    var i := 0;
    var gs: seq<seq<T>> := [];
    var k := 0;
    assert counts[k..] == counts;
    PrependNothing(PartitionFrom(elements, counts, 0));
    while k < |counts|
      invariant 0 <= k <= |counts| && i <= |elements|
      invariant Partition(elements, counts) == Prepend(gs, PartitionFrom(elements, counts[k..], i))
    {
      var n := counts[k];
      var li: seq<T> := [];
      var j := 0;
      ghost var i0 := i;
      while j < n
        invariant 0 <= j <= Count(n) && i == i0 + j <= |elements|
        invariant li == elements[i0..i]
      {
        if i >= |elements| {
          assert counts[k..][0] == n && i0 + Count(n) > |elements|;
          return None;
        }
        li := li + [elements[i]];
        i := i + 1;
        j := j + 1;
      }
      assert counts[k..][0] == n && counts[k..][1..] == counts[k + 1..];
      assert j == Count(n);
      assert PartitionFrom(elements, counts[k..], i0)
          == Prepend([li], PartitionFrom(elements, counts[k + 1..], i));
      PrependPrepend(gs, [li], PartitionFrom(elements, counts[k + 1..], i));
      gs := gs + [li];
      k := k + 1;
    }
    assert counts[k..] == [];
    assert gs + [] == gs;
    r := Some(gs);
  }

  lemma PrependNothing<T>(r: Option<seq<seq<T>>>)
    ensures Prepend([], r) == r
  {
    if r.Some? {
      assert [] + r.value == r.value;
    }
  }

  lemma PrependPrepend<T>(gs: seq<seq<T>>, hs: seq<seq<T>>, r: Option<seq<seq<T>>>)
    ensures Prepend(gs, Prepend(hs, r)) == Prepend(gs + hs, r)
  {
    if r.Some? {
      assert gs + (hs + r.value) == (gs + hs) + r.value;
    }
  }

  /** `partition` succeeds exactly when the groups fit in the elements. */
  lemma {:induction false} PartitionFromSucceeds<T>(elements: seq<T>, counts: seq<int>, i: nat)
    requires i <= |elements|
    ensures PartitionFrom(elements, counts, i).Some? <==> i + Total(counts) <= |elements|
    decreases |counts|
  {
    if counts != [] {
      var n := Count(counts[0]);
      assert Total(counts) == n + Total(counts[1..]);
      if i + n <= |elements| {
        PartitionFromSucceeds(elements, counts[1..], i + n);
        var rest := PartitionFrom(elements, counts[1..], i + n);
        assert PartitionFrom(elements, counts, i) == Prepend([elements[i..i + n]], rest);
        assert Prepend([elements[i..i + n]], rest).Some? <==> rest.Some?;
      }
    }
  }

  /** What the groups are: one per count, group k of `Count(counts[k])`
      elements, and together the elements from `i` on, in order. */
  lemma {:induction false} PartitionFromShape<T>(elements: seq<T>, counts: seq<int>, i: nat)
    requires i <= |elements| && PartitionFrom(elements, counts, i).Some?
    ensures var gs := PartitionFrom(elements, counts, i).value;
            && |gs| == |counts|
            && (forall k :: 0 <= k < |gs| ==> |gs[k]| == Count(counts[k]))
            && i + Total(counts) <= |elements|
            && Concat(gs) == elements[i..i + Total(counts)]
    decreases |counts|
  {
    if counts != [] {
      var n := Count(counts[0]);
      PartitionFromShape(elements, counts[1..], i + n);
      var hs := PartitionFrom(elements, counts[1..], i + n).value;
      var gs := PartitionFrom(elements, counts, i).value;
      assert Total(counts) == n + Total(counts[1..]);
      assert gs == [elements[i..i + n]] + hs;
      assert gs[1..] == hs;
      forall k | 0 <= k < |gs|
        ensures |gs[k]| == Count(counts[k])
      {
        if k > 0 {
          assert gs[k] == hs[k - 1];
          assert counts[k] == counts[1..][k - 1];
        }
      }
      assert elements[i..i + Total(counts)] == elements[i..i + n] + elements[i + n..i + Total(counts)];
    }
  }

  lemma PartitionShape<T>(elements: seq<T>, counts: seq<int>)
    ensures Partition(elements, counts).Some? <==> Total(counts) <= |elements|
    ensures Partition(elements, counts).Some? ==>
              var gs := Partition(elements, counts).value;
              && |gs| == |counts|
              && (forall k :: 0 <= k < |gs| ==> |gs[k]| == Count(counts[k]))
              && Concat(gs) == elements[..Total(counts)]
  {
    PartitionFromSucceeds(elements, counts, 0);
    if Partition(elements, counts).Some? {
      PartitionFromShape(elements, counts, 0);
    }
  }

  lemma {:induction false} TotalIsSum(counts: seq<int>)
    requires forall k :: 0 <= k < |counts| ==> counts[k] >= 0
    ensures Total(counts) == Sum(counts)
  {
    if counts != [] {
      assert forall k :: 0 <= k < |counts| - 1 ==> counts[1..][k] == counts[k + 1];
      TotalIsSum(counts[1..]);
    }
  }

  /** What `load_faces` asserts before partitioning is enough when no count
      is negative: every element lands in exactly one group, in order. */
  lemma PartitionUsesAll<T>(elements: seq<T>, counts: seq<int>)
    requires forall k :: 0 <= k < |counts| ==> counts[k] >= 0
    requires |elements| == Sum(counts)
    ensures Partition(elements, counts).Some?
    ensures Concat(Partition(elements, counts).value) == elements
  {
    TotalIsSum(counts);
    PartitionShape(elements, counts);
  }

  /** ... and is not enough with a negative count: the sum matches, yet
      `partition` runs out of elements. */
  lemma NegativeCountOverruns<T>(x: T)
    ensures Sum([-1, 2]) == |[x]|
    ensures Partition([x], [-1, 2]).None?
  {
    PartitionFromSucceeds([x], [-1, 2], 0);
    assert Total([-1, 2]) == 2 by {
      assert [-1, 2][1..] == [2];
      assert [2][1..] == [];
    }
  }
}

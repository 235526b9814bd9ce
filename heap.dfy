/** The array-backed binary min-heap of src/heap.rs. Elements are integers
    (a total order stands in for `PartialOrd`); the backing `Vec` is a
    sequence field that `Push` and `Pop` reassign. */
module MinHeap {

  datatype Option<T> = None | Some(value: T)

  /** The parent of slot `i >= 1`, written as the source writes it. */
  function Parent(i: nat): (p: nat)
    requires i >= 1
    ensures p < i
    ensures i == 2 * p + 1 || i == 2 * p + 2
  {
    (i + 1) / 2 - 1
  }

  /** Slot `c` is a child of slot `k` exactly when it is at 2k+1 or 2k+2. */
  lemma ChildSlots(k: nat, c: nat)
    requires c >= 1
    ensures Parent(c) == k <==> c == 2 * k + 1 || c == 2 * k + 2
  {
  }

  /** The min-heap invariant: no slot is smaller than its parent. */
  ghost predicate IsHeap(h: seq<int>)
  {
    forall i :: 1 <= i < |h| ==> h[Parent(i)] <= h[i]
  }

  /** In a heap, every slot is at least the slot at the root. */
  lemma {:induction false} RootBelow(h: seq<int>, i: nat)
    requires IsHeap(h) && i < |h|
    ensures h[0] <= h[i]
    decreases i
  {
    if i > 0 {
      RootBelow(h, Parent(i));
    }
  }

  /** The root of a non-empty heap is its minimum. */
  lemma HeapMinimum(h: seq<int>)
    requires IsHeap(h) && |h| > 0
    ensures forall x :: x in multiset(h) ==> h[0] <= x
  {
    forall x | x in multiset(h)
      ensures h[0] <= x
    {
      var i :| 0 <= i < |h| && h[i] == x;
      RootBelow(h, i);
    }
  }

  /** `Vec::swap`: slots `i` and `j` trade places; nothing else moves. */
  function Swap(h: seq<int>, i: nat, j: nat): (r: seq<int>)
    requires i < |h| && j < |h|
    ensures |r| == |h| && r[i] == h[j] && r[j] == h[i]
    ensures forall k :: 0 <= k < |h| && k != i && k != j ==> r[k] == h[k]
    ensures multiset(r) == multiset(h)
  {
    h[i := h[j]][j := h[i]]
  }

  /** `Vec::swap_remove(0)`: the first element leaves and the last one takes its slot. */
  function SwapRemoveFirst(h: seq<int>): (r: seq<int>)
    requires |h| > 0
    ensures |r| == |h| - 1
    ensures |r| > 0 ==> r[0] == h[|h| - 1] && r[1..] == h[1..|h| - 1]
    ensures multiset(r) == multiset(h) - multiset{h[0]}
  {
    assert h == [h[0]] + h[1..];
    if |h| == 1 then [] else
      assert h[1..] == h[1..|h| - 1] + [h[|h| - 1]];
      [h[|h| - 1]] + h[1..|h| - 1]
  }

  /** The heap order holds everywhere except, possibly, between slot `k` and its parent. */
  ghost predicate HeapBelow(h: seq<int>, k: nat)
  {
    forall i :: 1 <= i < |h| && i != k ==> h[Parent(i)] <= h[i]
  }

  /** The heap order holds everywhere except, possibly, between slot `k` and its children. */
  ghost predicate HeapAbove(h: seq<int>, k: nat)
  {
    forall i :: 1 <= i < |h| && Parent(i) != k ==> h[Parent(i)] <= h[i]
  }

  /** The parent of slot `k` is no larger than the children of `k`. */
  ghost predicate GrandparentBound(h: seq<int>, k: nat)
    requires k < |h|
  {
    k >= 1 ==> forall c :: 1 <= c < |h| && Parent(c) == k ==> h[Parent(k)] <= h[c]
  }

  /** Appending to a heap breaks the order at most between the new last slot and its parent. */
  lemma PushStart(h: seq<int>, v: int)
    requires IsHeap(h)
    ensures HeapBelow(h + [v], |h|) && GrandparentBound(h + [v], |h|)
  {
  }

  /** One sift-up swap moves the possible break one level up. */
  lemma SiftUpStep(h: seq<int>, k: nat)
    requires 1 <= k < |h| && HeapBelow(h, k) && GrandparentBound(h, k)
    requires h[Parent(k)] > h[k]
    ensures HeapBelow(Swap(h, k, Parent(k)), Parent(k))
    ensures GrandparentBound(Swap(h, k, Parent(k)), Parent(k))
  {
    var p := Parent(k);
    var g := Swap(h, k, p);
    forall i | 1 <= i < |g| && i != p
      ensures g[Parent(i)] <= g[i]
    {
      if i == k {
      } else if Parent(i) == k {
        assert g[k] == h[p] && g[i] == h[i];
      } else if Parent(i) == p {
        assert g[p] == h[k] && g[i] == h[i];
      } else {
        assert g[Parent(i)] == h[Parent(i)];
      }
    }
    if p >= 1 {
      forall c | 1 <= c < |g| && Parent(c) == p
        ensures g[Parent(p)] <= g[c]
      {
        assert g[Parent(p)] == h[Parent(p)];
      }
    }
  }

  /** Sift-up stops at the root or below a parent that is no larger: the heap is whole. */
  lemma SiftUpDone(h: seq<int>, k: nat)
    requires k < |h| && HeapBelow(h, k)
    requires k == 0 || h[Parent(k)] <= h[k]
    ensures IsHeap(h)
  {
  }

  /** After `swap_remove(0)` on a heap, the order can fail only below the root. */
  lemma PopStart(h: seq<int>)
    requires IsHeap(h) && |h| > 0
    ensures HeapAbove(SwapRemoveFirst(h), 0)
  {
    var r := SwapRemoveFirst(h);
    forall i | 1 <= i < |r| && Parent(i) != 0
      ensures r[Parent(i)] <= r[i]
    {
      assert r[i] == r[1..][i - 1] == h[i];
      assert r[Parent(i)] == r[1..][Parent(i) - 1] == h[Parent(i)];
    }
  }

  /** Slot `m` holds a value no larger than any child of slot `k`. */
  ghost predicate BelowChildrenOf(h: seq<int>, k: nat, m: nat)
    requires m < |h|
  {
    forall c :: 1 <= c < |h| && Parent(c) == k ==> h[m] <= h[c]
  }

  /** A value no larger than both 2k+1 and 2k+2 (where they exist) is below every child of k. */
  lemma BelowBothChildren(h: seq<int>, k: nat, m: nat)
    requires m < |h|
    requires 2 * k + 1 < |h| ==> h[m] <= h[2 * k + 1]
    requires 2 * k + 2 < |h| ==> h[m] <= h[2 * k + 2]
    ensures BelowChildrenOf(h, k, m)
  {
    forall c | 1 <= c < |h| && Parent(c) == k
      ensures h[m] <= h[c]
    {
      ChildSlots(k, c);
    }
  }

  /** One sift-down swap with the smaller child moves the possible break one level down. */
  lemma SiftDownStep(h: seq<int>, k: nat, m: nat)
    requires k < m < |h| && Parent(m) == k
    requires HeapAbove(h, k) && GrandparentBound(h, k)
    requires h[m] < h[k]
    requires BelowChildrenOf(h, k, m)
    ensures HeapAbove(Swap(h, m, k), m) && GrandparentBound(Swap(h, m, k), m)
  {
    var g := Swap(h, m, k);
    forall i | 1 <= i < |g| && Parent(i) != m
      ensures g[Parent(i)] <= g[i]
    {
      if i == m {
      } else if Parent(i) == k {
        assert g[k] == h[m] && g[i] == h[i];
      } else if i == k {
        assert g[Parent(k)] == h[Parent(k)];
      } else {
        assert g[Parent(i)] == h[Parent(i)];
      }
    }
    forall c | 1 <= c < |g| && Parent(c) == m
      ensures g[Parent(m)] <= g[c]
    {
      assert g[c] == h[c];
    }
  }

  /** Sift-down stops past the end or above children that are no smaller: the heap is whole. */
  lemma SiftDownDone(h: seq<int>, k: nat)
    requires HeapAbove(h, k)
    requires k < |h| ==> BelowChildrenOf(h, k, k)
    ensures IsHeap(h)
  {
  }

  /** The first branch of the sift-down loop: the right child exists, is
      below the left child and below the slot, so swapping it down keeps
      the order everywhere but below the right child. */
  lemma SiftDownRight(h: seq<int>, k: nat)
    requires 2 * k + 2 < |h| && h[2 * k + 1] > h[2 * k + 2] && h[2 * k + 2] < h[k]
    requires HeapAbove(h, k) && GrandparentBound(h, k)
    ensures HeapAbove(Swap(h, 2 * k + 2, k), 2 * k + 2)
    ensures GrandparentBound(Swap(h, 2 * k + 2, k), 2 * k + 2)
  {
    var m := 2 * k + 2;
    ChildrenOf(k);
    BelowBothChildren(h, k, m);
    SiftDownStep(h, k, m);
  }

  /** The second branch: the first did not apply, and the left child exists
      and is below the slot, so it is the smaller child and swaps down. */
  lemma SiftDownLeft(h: seq<int>, k: nat)
    requires 2 * k + 1 < |h| && h[2 * k + 1] < h[k]
    requires !(2 * k + 2 < |h| && h[2 * k + 1] > h[2 * k + 2] && h[2 * k + 2] < h[k])
    requires HeapAbove(h, k) && GrandparentBound(h, k)
    ensures HeapAbove(Swap(h, 2 * k + 1, k), 2 * k + 1)
    ensures GrandparentBound(Swap(h, 2 * k + 1, k), 2 * k + 1)
  {
    var m := 2 * k + 1;
    ChildrenOf(k);
    BelowBothChildren(h, k, m);
    SiftDownStep(h, k, m);
  }

  /** Slots 2k+1 and 2k+2 have k as their parent. */
  lemma ChildrenOf(k: nat)
    ensures Parent(2 * k + 1) == k && Parent(2 * k + 2) == k
  {
    ChildSlots(k, 2 * k + 1);
    ChildSlots(k, 2 * k + 2);
  }

  /** The last branch: neither swap applies, so no child is below the slot
      and the heap is whole. */
  lemma SiftDownStop(h: seq<int>, k: nat)
    requires k < |h| && HeapAbove(h, k)
    requires !(2 * k + 2 < |h| && h[2 * k + 1] > h[2 * k + 2] && h[2 * k + 2] < h[k])
    requires !(2 * k + 1 < |h| && h[2 * k + 1] < h[k])
    ensures IsHeap(h)
  {
    BelowBothChildren(h, k, k);
    SiftDownDone(h, k);
  }

  class Heap {
    var heap: seq<int>

    ghost predicate Valid()
      reads this
    {
      IsHeap(heap)
    }

    /** `Heap::new`: an empty heap. */
    constructor ()
      ensures Valid() && heap == []
    {
      heap := [];
    }

    /** `push`: append `v`, then swap it with its parent while the parent is
        larger, stopping at the root. */
    method Push(v: int)
      requires Valid()
      modifies this
      ensures Valid()
      ensures |heap| == |old(heap)| + 1
      ensures multiset(heap) == multiset(old(heap)) + multiset{v}
    {
      PushStart(heap, v);
      heap := heap + [v];
      var index := |heap| - 1;
      if index == 0 {
        SiftUpDone(heap, index);
        return;
      }
      while true
        invariant 1 <= index < |heap|
        invariant |heap| == |old(heap)| + 1
        invariant multiset(heap) == multiset(old(heap)) + multiset{v}
        invariant HeapBelow(heap, index) && GrandparentBound(heap, index)
        decreases index
      {
        var parent := Parent(index);
        if heap[parent] > heap[index] {
          SiftUpStep(heap, index);
          heap := Swap(heap, index, parent);
          index := parent;
          if index != 0 {
            continue;
          }
        }
        SiftUpDone(heap, index);
        break;
      }
    }

    /** `pop`: nothing from an empty heap; otherwise take the root, move the
        last element into its slot and swap it down, with the right child
        only when it is below both the left child and the element, else with
        the left child when that is below the element. */
    method Pop() returns (r: Option<int>)
      requires Valid()
      modifies this
      ensures Valid()
      ensures old(heap) == [] ==> r == None && heap == old(heap)
      ensures old(heap) != [] ==> r == Some(old(heap)[0])
      ensures old(heap) != [] ==> r.value in multiset(old(heap)) && forall x :: x in multiset(old(heap)) ==> r.value <= x
      ensures old(heap) != [] ==> |heap| == |old(heap)| - 1 && multiset(heap) == multiset(old(heap)) - multiset{old(heap)[0]}
    {
      if |heap| == 0 {
        return None;
      }
      ghost var before := heap;
      HeapMinimum(before);
      PopStart(before);
      var smallest := heap[0];
      heap := SwapRemoveFirst(heap);
      SiftDown();
      r := Some(smallest);
    }

    /** The sift-down loop of `pop`, from the root: swap with the right child
        only when it is below both the left child and the element, else with
        the left child when that is below the element, else stop. */
    method SiftDown()
      requires HeapAbove(heap, 0)
      modifies this
      ensures Valid()
      ensures |heap| == |old(heap)| && multiset(heap) == multiset(old(heap))
    {
      var index := 0;
      while true
        invariant |heap| == |old(heap)| && multiset(heap) == multiset(old(heap))
        invariant HeapAbove(heap, index)
        invariant index < |heap| ==> GrandparentBound(heap, index)
        decreases |heap| - index
      {
        var left := 2 * index + 1;
        var right := left + 1;
        if index >= |heap| {
          SiftDownDone(heap, index);
          break;
        }
        if right < |heap| && heap[left] > heap[right] && heap[right] < heap[index] {
          SiftDownRight(heap, index);
          heap := Swap(heap, right, index);
          index := right;
        } else if left < |heap| && heap[left] < heap[index] {
          SiftDownLeft(heap, index);
          heap := Swap(heap, left, index);
          index := left;
        } else {
          SiftDownStop(heap, index);
          break;
        }
      }
    }
  }

  /** Pushing 5, 4, 3, 2, 1 and popping six times yields them in ascending
      order, then nothing. */
  method PushPopScenario() returns (popped: seq<Option<int>>)
    ensures popped == [Some(1), Some(2), Some(3), Some(4), Some(5), None]
  {
    var h := new Heap();
    h.Push(5);
    h.Push(4);
    h.Push(3);
    h.Push(2);
    h.Push(1);
    assert multiset(h.heap) == multiset(Range(1, 6));
    var r1 := h.Pop();
    RangeMinimum(1, 6, r1.value);
    var r2 := h.Pop();
    RangeMinimum(2, 6, r2.value);
    var r3 := h.Pop();
    RangeMinimum(3, 6, r3.value);
    var r4 := h.Pop();
    RangeMinimum(4, 6, r4.value);
    var r5 := h.Pop();
    RangeMinimum(5, 6, r5.value);
    var r6 := h.Pop();
    popped := [r1, r2, r3, r4, r5, r6];
  }

  /** The integers lo, lo+1, ..., hi-1. */
  function Range(lo: int, hi: int): (r: seq<int>)
    ensures |r| == if lo < hi then hi - lo else 0
    ensures forall i :: 0 <= i < |r| ==> r[i] == lo + i
    decreases hi - lo
  {
    if lo >= hi then [] else [lo] + Range(lo + 1, hi)
  }

  /** The least of lo, ..., hi-1 is lo, and taking it away leaves lo+1, ..., hi-1. */
  lemma RangeMinimum(lo: int, hi: int, x: int)
    requires lo < hi && x in multiset(Range(lo, hi))
    requires forall y :: y in multiset(Range(lo, hi)) ==> x <= y
    ensures x == lo && multiset(Range(lo, hi)) - multiset{x} == multiset(Range(lo + 1, hi))
  {
    var r := Range(lo, hi);
    assert r == [lo] + Range(lo + 1, hi);
    assert lo in multiset(r);
    var i :| 0 <= i < |r| && r[i] == x;
  }
}

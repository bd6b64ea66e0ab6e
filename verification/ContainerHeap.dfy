/** The binary-heap algorithms of Go's container/heap, run on the indexed queue. */
module ContainerHeap {
  import opened Queue

  function Parent(k: int): int
    requires k > 0
  {
    (k - 1) / 2
  }

  /** The edge between slot k and its parent is in order. */
  ghost predicate Edge<T>(s: seq<Item<T>>, k: int)
    requires 0 < k < |s|
  {
    s[Parent(k)].priority <= s[k].priority
  }

  /** The first n slots form a heap, as far as parents from lo on are concerned. */
  ghost predicate HeapFrom<T>(s: seq<Item<T>>, lo: int, n: int)
    requires n <= |s|
  {
    forall k :: 0 < k < n && lo <= Parent(k) ==> Edge(s, k)
  }

  ghost predicate Heap<T>(s: seq<Item<T>>) {
    HeapFrom(s, 0, |s|)
  }

  /** As HeapFrom, except that the edge above x may be out of order. */
  ghost predicate HeapButAbove<T>(s: seq<Item<T>>, lo: int, n: int, x: int)
    requires n <= |s|
  {
    forall k :: 0 < k < n && lo <= Parent(k) && k != x ==> Edge(s, k)
  }

  /** The children of x are in order with the parent of x. */
  ghost predicate Bridged<T>(s: seq<Item<T>>, lo: int, n: int, x: int)
    requires 0 <= x < |s| && n <= |s|
  {
    0 < x && lo <= Parent(x) ==>
      forall k :: 0 < k < n && Parent(k) == x ==> s[Parent(x)].priority <= s[k].priority
  }

  /** The root of a heap is a least item. */
  lemma {:induction false} RootIsLeast<T>(s: seq<Item<T>>, k: nat)
    requires Heap(s) && k < |s|
    ensures s[0].priority <= s[k].priority
  {
    if k > 0 {
      RootIsLeast(s, Parent(k));
      assert Edge(s, k);
    }
  }

  method Up<T>(h: PriorityQueue<T>, j0: nat, ghost n: nat)
    requires j0 < n <= |h.items| && h.Indexed()
    requires HeapButAbove(h.items, 0, n, j0) && Bridged(h.items, 0, n, j0)
    modifies h, h.items
    ensures h.Indexed() && SameItems(h.items, old(h.items)) && HeapFrom(h.items, 0, n)
    ensures forall k :: n <= k < |h.items| ==> h.items[k] == old(h.items)[k]
  {
    var j := j0;
    while j > 0 && h.Less(j, Parent(j))
      invariant 0 <= j < n <= |h.items| == |old(h.items)| && h.Indexed()
      invariant HeapButAbove(h.items, 0, n, j) && Bridged(h.items, 0, n, j)
      invariant SameItems(h.items, old(h.items))
      invariant forall k :: n <= k < |h.items| ==> h.items[k] == old(h.items)[k]
    {
      ghost var s := h.items;
      var i := Parent(j);
      assert h.items[i] in h.items && h.items[j] in h.items;
      h.Swap(i, j);
      UpStep(s, h.items, n, i, j);
      j := i;
    }
  }

  lemma UpStep<T>(s: seq<Item<T>>, s': seq<Item<T>>, n: int, i: int, j: int)
    requires 0 < j < n <= |s| && i == Parent(j) && s' == s[i := s[j]][j := s[i]]
    requires HeapButAbove(s, 0, n, j) && Bridged(s, 0, n, j)
    requires s[j].priority < s[i].priority
    ensures HeapButAbove(s', 0, n, i) && Bridged(s', 0, n, i)
  {
    forall k | 0 < k < n && k != i
      ensures Edge(s', k)
    {
      assert k != j ==> Edge(s, k);
    }
    if 0 < i {
      assert Edge(s, i);
      forall k | 0 < k < n && Parent(k) == i
        ensures s'[Parent(i)].priority <= s'[k].priority
      {
        assert k != j ==> Edge(s, k);
      }
    }
  }

  /** x is in order with its children. */
  ghost predicate AboveChildren<T>(s: seq<Item<T>>, n: int, x: int)
    requires n <= |s|
  {
    forall k :: 0 < k < n && Parent(k) == x ==> Edge(s, k)
  }

  /** The item on its way down has reached slot x from slot x0. */
  ghost predicate Sinking<T>(s: seq<Item<T>>, lo: int, n: int, x0: int, x: int)
    requires 0 <= x0 <= x < |s| && n <= |s|
  {
    && Bridged(s, lo, n, x)
    && forall k :: 0 < k < n && lo <= Parent(k) && (k != x || x0 < x) && Parent(k) != x ==> Edge(s, k)
  }

  function LeastChild<T>(h: PriorityQueue<T>, i: nat, n: nat): (j: nat)
    requires 2 * i + 1 < n <= |h.items|
    reads h
    ensures 0 < j < n && Parent(j) == i
    ensures forall k :: 0 < k < n && Parent(k) == i ==> h.items[j].priority <= h.items[k].priority
  {
    var j := 2 * i + 1;
    if j + 1 < n && h.Less(j + 1, j) then j + 1 else j
  }

  method Down<T>(h: PriorityQueue<T>, i0: nat, n: nat, ghost lo: nat) returns (moved: bool)
    requires lo <= i0 < |h.items| && n <= |h.items| && h.Indexed()
    requires Sinking(h.items, lo, n, i0, i0)
    modifies h, h.items
    ensures h.Indexed() && SameItems(h.items, old(h.items))
    ensures forall k :: n <= k < |h.items| ==> h.items[k] == old(h.items)[k]
    ensures HeapButAbove(h.items, lo, n, i0)
    ensures if moved then HeapFrom(h.items, lo, n) else h.items == old(h.items)
    ensures AboveChildren(old(h.items), n, i0) ==> !moved
  {
    var i := i0;
    while 2 * i + 1 < n
      invariant i0 <= i < |h.items| && h.Indexed()
      invariant SameItems(h.items, old(h.items))
      invariant Sinking(h.items, lo, n, i0, i)
      invariant if i == i0 then h.items == old(h.items) else !AboveChildren(old(h.items), n, i0)
      invariant forall k :: n <= k < |h.items| ==> h.items[k] == old(h.items)[k]
      decreases n - i
    {
      ghost var s := h.items;
      var j := LeastChild(h, i, n);
      if !h.Less(j, i) {
        break;
      }
      assert h.items[i] in h.items && h.items[j] in h.items;
      h.Swap(i, j);
      DownStep(s, h.items, lo, n, i0, i, j);
      i := j;
    }
    moved := i > i0;
  }

  lemma DownStep<T>(s: seq<Item<T>>, s': seq<Item<T>>, lo: int, n: int, i0: int, i: int, j: int)
    requires 0 <= lo && 0 <= i0 <= i < j < n <= |s| && i == Parent(j) && s' == s[i := s[j]][j := s[i]]
    requires Sinking(s, lo, n, i0, i)
    requires s[j].priority < s[i].priority
    requires forall k :: 0 < k < n && Parent(k) == i ==> s[j].priority <= s[k].priority
    ensures Sinking(s', lo, n, i0, j)
    ensures !AboveChildren(s, n, i)
  {
    assert !Edge(s, j);
    forall k | 0 < k < n && lo <= Parent(k) && Parent(k) != j
      ensures Edge(s', k)
    {
      assert k != i && Parent(k) != i ==> Edge(s, k);
    }
    forall k | 0 < k < n && Parent(k) == j && lo <= Parent(j)
      ensures s'[Parent(j)].priority <= s'[k].priority
    {
      assert Edge(s, k);
    }
  }

  /** s holds the items of t and the item x. */
  ghost predicate OneMore<T>(s: seq<Item<T>>, t: seq<Item<T>>, x: Item<T>) {
    && |s| == |t| + 1
    && multiset(s) == multiset(t) + multiset{x}
    && (forall y <- s :: y in t || y == x)
    && x in s && (forall y <- t :: y in s)
  }

  lemma OneMoreLast<T>(s: seq<Item<T>>, t: seq<Item<T>>, u: seq<Item<T>>, x: Item<T>)
    requires SameItems(s, t) && t == u + [x]
    ensures OneMore(s, u, x)
  {
    assert multiset(t) == multiset(u) + multiset{x};
  }

  /** Re-establishes the heap from scratch. On a heap it moves nothing. */
  method Init<T>(h: PriorityQueue<T>)
    requires h.Indexed()
    modifies h, h.items
    ensures h.Indexed() && Heap(h.items) && SameItems(h.items, old(h.items))
    ensures Heap(old(h.items)) ==> h.items == old(h.items)
  {
    var n: int := h.Len();
    var i := n / 2 - 1;
    while i >= 0
      invariant -1 <= i < n == |h.items| && h.Indexed()
      invariant SameItems(h.items, old(h.items))
      invariant HeapFrom(h.items, i + 1, n)
      invariant Heap(old(h.items)) ==> h.items == old(h.items)
    {
      assert forall k :: 0 <= k < n ==> h.items[k] in h.items;
      var _ := Down(h, i, n, i);
      i := i - 1;
    }
  }

  method Push<T>(h: PriorityQueue<T>, item: Item<T>)
    requires h.Indexed() && Heap(h.items) && item !in h.items
    modifies h, h.items, item
    ensures h.Indexed() && Heap(h.items) && OneMore(h.items, old(h.items), item)
  {
    h.Push(item);
    assert forall k :: 0 < k < |h.items| - 1 ==> Edge(old(h.items), k);
    ghost var t := h.items;
    Up(h, h.Len() - 1, h.Len());
    OneMoreLast(h.items, t, old(h.items), item);
  }

  /** With slot i exchanged for the last one, the rest is a heap in which the item at i has to find its place. */
  lemma SwapOut<T>(s: seq<Item<T>>, s': seq<Item<T>>, i: nat)
    requires Heap(s) && i < |s| && s' == s[i := s[|s| - 1]][|s| - 1 := s[i]]
    ensures Sinking(s', 0, |s| - 1, i, i)
  {
    var n := |s| - 1;
    forall k | 0 < k < n && k != i && Parent(k) != i
      ensures Edge(s', k)
    {
      assert Edge(s, k);
    }
    forall k | 0 < k < n && Parent(k) == i && 0 < i
      ensures s'[Parent(i)].priority <= s'[k].priority
    {
      assert Edge(s, k) && Edge(s, i);
    }
  }

  /** Takes a least item out. */
  method Pop<T>(h: PriorityQueue<T>) returns (item: Item<T>)
    requires h.Indexed() && Heap(h.items) && h.items != []
    modifies h, h.items
    ensures h.Indexed() && Heap(h.items) && OneMore(old(h.items), h.items, item)
    ensures item == old(h.items)[0] && item.index == -1 && item !in h.items
    ensures forall y <- old(h.items) :: item.priority <= y.priority
  {
    var n := h.Len() - 1;
    h.Swap(0, n);
    SwapOut(old(h.items), h.items, 0);
    var _ := Down(h, 0, n, 0);
    item := TakeLast(h, old(h.items));
    forall k | 0 <= k < |old(h.items)|
      ensures item.priority <= old(h.items)[k].priority
    {
      RootIsLeast(old(h.items), k);
    }
  }

  /** Takes the item in slot i out. */
  method Remove<T>(h: PriorityQueue<T>, i: nat) returns (item: Item<T>)
    requires h.Indexed() && Heap(h.items) && i < |h.items|
    modifies h, h.items
    ensures h.Indexed() && Heap(h.items) && OneMore(old(h.items), h.items, item)
    ensures item == old(h.items)[i] && item.index == -1 && item !in h.items
  {
    var n := h.Len() - 1;
    if n != i {
      h.Swap(i, n);
      SwapOut(old(h.items), h.items, i);
      var moved := Down(h, i, n, 0);
      if !moved {
        Up(h, i, n);
      }
    }
    item := TakeLast(h, old(h.items));
  }

  /** The last step of Pop and Remove: cut off the last slot. */
  method TakeLast<T>(h: PriorityQueue<T>, ghost was: seq<Item<T>>) returns (item: Item<T>)
    requires h.Indexed() && h.items != [] && SameItems(was, h.items)
    requires HeapFrom(h.items, 0, |h.items| - 1)
    modifies h, h.items[|h.items| - 1]
    ensures h.Indexed() && Heap(h.items) && OneMore(was, h.items, item)
    ensures item == old(h.items[|h.items| - 1]) && item.index == -1 && item !in h.items
  {
    ghost var t := h.items;
    assert forall k :: 0 <= k < |t| - 1 ==> t[k] != t[|t| - 1];
    item := h.Pop();
    assert forall k :: 0 <= k < |h.items| ==> h.items[k] == t[k];
    assert forall k :: 0 < k < |h.items| ==> Edge(t, k);
    OneMoreLast(was, t, h.items, item);
  }
}

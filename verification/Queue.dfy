/** The slice of items that container/heap works on: every item stores the slot it sits in. */
module Queue {

  class Item<T> {
    const value: T
    const priority: int
    var index: int
    /** The queue that the item is made for. */
    ghost const keeper: object?

    constructor (value: T, priority: int, ghost keeper: object?)
      ensures this.value == value && this.priority == priority && index == 0 && this.keeper == keeper
    {
      this.value, this.priority, this.index, this.keeper := value, priority, 0, keeper;
    }
  }

  /** The same items, each as often, in some order. */
  ghost predicate SameItems<T>(s: seq<Item<T>>, t: seq<Item<T>>) {
    && |s| == |t|
    && multiset(s) == multiset(t)
    && (forall x <- s :: x in t)
    && (forall x <- t :: x in s)
  }

  lemma SwapKeepsItems<T>(s: seq<Item<T>>, i: nat, j: nat)
    requires i < |s| && j < |s|
    ensures SameItems(s[i := s[j]][j := s[i]], s)
  {
    var t := s[i := s[j]][j := s[i]];
    assert multiset(t) == multiset(s);
    SameMembers(s, t);
  }

  lemma SameMembers<T>(s: seq<T>, t: seq<T>)
    requires multiset(s) == multiset(t)
    ensures (forall x <- s :: x in t) && (forall x <- t :: x in s)
  {
    forall x | x in s
      ensures x in t
    {
      assert x in multiset(s);
    }
    forall x | x in t
      ensures x in s
    {
      assert x in multiset(t);
    }
  }

  class PriorityQueue<T> {
    var items: seq<Item<T>>

    constructor ()
      ensures items == []
    {
      items := [];
    }

    /** Every stored item knows its slot. In particular no item is stored twice. */
    ghost predicate Indexed()
      reads this, items
    {
      forall i :: 0 <= i < |items| ==> items[i].index == i
    }

    /** The stored index of an item leads back to the item. */
    lemma SlotOf(item: Item<T>)
      requires Indexed() && item in items
      ensures 0 <= item.index < |items| && items[item.index] == item
    {
    }

    function Len(): (n: nat)
      reads this
    {
      |items|
    }

    predicate Less(i: nat, j: nat)
      requires i < |items| && j < |items|
      reads this
    {
      items[i].priority < items[j].priority
    }

    method Swap(i: nat, j: nat)
      requires i < |items| && j < |items|
      modifies this, items[i], items[j]
      ensures items == old(items[i := items[j]][j := items[i]])
      ensures items[j].index == j
      ensures i == j || items[i] != items[j] ==> items[i].index == i
      ensures old(Indexed()) ==> Indexed()
      ensures SameItems(items, old(items))
    {
      SwapKeepsItems(items, i, j);
      items := items[i := items[j]][j := items[i]];
      items[i].index := i;
      items[j].index := j;
    }

    method Push(item: Item<T>)
      modifies this, item
      ensures items == old(items) + [item]
      ensures item.index == |old(items)|
    {
      item.index := |items|;
      items := items + [item];
    }

    method Pop() returns (item: Item<T>)
      requires items != []
      modifies this, items[|items| - 1]
      ensures old(items) == items + [item]
      ensures item.index == -1
    {
      var n := |items| - 1;
      item := items[n];
      items := items[..n];
      item.index := -1;
    }

    function AtIdx(i: nat): (item: Item<T>)
      requires i < |items|
      reads this
    {
      items[i]
    }
  }
}

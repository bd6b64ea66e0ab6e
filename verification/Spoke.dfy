/** A time-bounded collection of jobs: a queue ordered by trigger, and a map for finding jobs by id. */
module Spokes {
  import opened Options
  import opened Temporal
  import opened Jobs
  import opened Queue
  import opened SpokeModel
  import opened Persistence
  import ContainerHeap

  /** The values of the items, each as often as it is stored. */
  ghost function Values<T>(s: seq<Item<T>>): multiset<T> {
    if s == [] then multiset{} else Values(s[..|s| - 1]) + multiset{s[|s| - 1].value}
  }

  function Without<X>(s: seq<X>, i: nat): seq<X>
    requires i < |s|
  {
    s[..i] + s[i + 1..]
  }

  lemma InitLast<X>(s: seq<X>)
    requires s != []
    ensures s == s[..|s| - 1] + [s[|s| - 1]]
  {
  }

  lemma WithoutLast<X>(s: seq<X>)
    requires s != []
    ensures Without(s, |s| - 1) == s[..|s| - 1]
  {
  }

  lemma WithoutSnoc<X>(s: seq<X>, i: nat, x: X)
    requires i < |s|
    ensures Without(s + [x], i) == Without(s, i) + [x]
  {
  }

  lemma MultisetWithout<X>(s: seq<X>, i: nat)
    requires i < |s|
    ensures multiset(Without(s, i)) == multiset(s) - multiset{s[i]}
  {
    assert s == s[..i] + [s[i]] + s[i + 1..];
  }

  lemma {:induction false} ValuesWithout<T>(s: seq<Item<T>>, i: nat)
    requires i < |s|
    ensures Values(s) == Values(Without(s, i)) + multiset{s[i].value}
  {
    var n := |s| - 1;
    if i < n {
      ValuesWithout(s[..n], i);
      ValuesWithoutSnoc(s[..n], i, s[n]);
      InitLast(s);
    } else {
      WithoutLast(s);
    }
  }

  lemma ValuesSnoc<T>(s: seq<Item<T>>, x: Item<T>)
    ensures Values(s + [x]) == Values(s) + multiset{x.value}
  {
    assert (s + [x])[..|s|] == s;
  }

  lemma ValuesWithoutSnoc<T>(s: seq<Item<T>>, i: nat, x: Item<T>)
    requires i < |s| && Values(s) == Values(Without(s, i)) + multiset{s[i].value}
    ensures Values(s + [x]) == Values(Without(s + [x], i)) + multiset{s[i].value}
  {
    ValuesSnoc(s, x);
    ValuesSnoc(Without(s, i), x);
    WithoutSnoc(s, i, x);
    Exchange(Values(Without(s, i)), s[i].value, x.value);
  }

  lemma Exchange<T>(a: multiset<T>, x: T, y: T)
    ensures a + multiset{x} + multiset{y} == a + multiset{y} + multiset{x}
  {
  }

  lemma {:induction false} ValuesSame<T>(s: seq<Item<T>>, t: seq<Item<T>>)
    requires multiset(s) == multiset(t)
    ensures Values(s) == Values(t)
    decreases |s|
  {
    if s == [] {
      assert |multiset(t)| == 0;
    } else {
      var n := |s| - 1;
      assert s[n] in multiset(s);
      var i :| 0 <= i < |t| && t[i] == s[n];
      MultisetWithout(s, n);
      MultisetWithout(t, i);
      ValuesSame(Without(s, n), Without(t, i));
      ValuesWithout(s, n);
      ValuesWithout(t, i);
    }
  }

  lemma ValuesOneMore<T>(s: seq<Item<T>>, t: seq<Item<T>>, x: Item<T>)
    requires ContainerHeap.OneMore(s, t, x)
    ensures Values(s) == Values(t) + multiset{x.value}
  {
    ValuesSame(s, t + [x]);
    assert (t + [x])[..|t|] == t;
  }

  lemma {:induction false} ValuesOf<T>(s: seq<Item<T>>)
    ensures |Values(s)| == |s|
    ensures forall x <- s :: x.value in Values(s)
    ensures forall v <- Values(s) :: exists x <- s :: x.value == v
  {
    if s != [] {
      var n := |s| - 1;
      ValuesOf(s[..n]);
      assert s == s[..n] + [s[n]];
      forall v <- Values(s)
        ensures exists x <- s :: x.value == v
      {
        if v in Values(s[..n]) {
          var x :| x in s[..n] && x.value == v;
          assert x in s;
        } else {
          assert s[n] in s;
        }
      }
    }
  }

  /** The values of the items, slot by slot. */
  ghost function Listing<T>(s: seq<Item<T>>): seq<T> {
    if s == [] then [] else Listing(s[..|s| - 1]) + [s[|s| - 1].value]
  }

  lemma {:induction false} ListingValues<T>(s: seq<Item<T>>)
    ensures multiset(Listing(s)) == Values(s)
  {
    if s != [] {
      ListingValues(s[..|s| - 1]);
    }
  }

  lemma {:induction false} ListingAt<T>(s: seq<Item<T>>, i: nat)
    requires i < |s|
    ensures |Listing(s)| == |s| && Listing(s)[i] == s[i].value
  {
    var n := |s| - 1;
    if i < n {
      ListingAt(s[..n], i);
    } else if n > 0 {
      ListingAt(s[..n], 0);
    }
  }

  lemma ListingNext<T>(was: seq<T>, s: seq<Item<T>>, i: nat)
    requires i < |s|
    ensures was + Listing(s[..i]) + [s[i].value] == was + Listing(s[..i + 1])
  {
    assert s[..i + 1][..i] == s[..i];
  }

  /** The jobs the map leads to. */
  ghost function Registered(jobMap: map<string, Item<Job>>): map<string, Job> {
    map id <- jobMap :: jobMap[id].value
  }

  lemma RegisteredInsert(jobMap: map<string, Item<Job>>, id: string, item: Item<Job>)
    ensures Registered(jobMap[id := item]) == Registered(jobMap)[id := item.value]
  {
    var l, r := Registered(jobMap[id := item]), Registered(jobMap)[id := item.value];
    assert l.Keys == jobMap.Keys + {id} == r.Keys;
    forall k <- l
      ensures l[k] == r[k]
    {
    }
  }

  lemma RegisteredRemove(jobMap: map<string, Item<Job>>, id: string)
    ensures Registered(jobMap - {id}) == Registered(jobMap) - {id}
  {
    var l, r := Registered(jobMap - {id}), Registered(jobMap) - {id};
    assert l.Keys == jobMap.Keys - {id} == r.Keys;
    forall k <- l
      ensures l[k] == r[k]
    {
    }
  }

  /** The queue and the map of a spoke tell the story that the view tells. */
  ghost predicate Tells(items: seq<Item<Job>>, jobMap: map<string, Item<Job>>, view: SpokeView) {
    && (forall x <- items :: x.priority == x.value.triggerAt)
    && (forall id <- jobMap :: jobMap[id] in items && jobMap[id].value.id == id)
    && view.pending == Values(items)
    && view.index == Registered(jobMap)
    && WellFormed(view)
  }

  lemma TellsInsert(items: seq<Item<Job>>, jobMap: map<string, Item<Job>>, view: SpokeView,
                    item: Item<Job>, items': seq<Item<Job>>)
    requires Tells(items, jobMap, view) && ContainerHeap.OneMore(items', items, item)
    requires item.priority == item.value.triggerAt && view.bound.ContainsTime(item.priority)
    ensures Tells(items', jobMap[item.value.id := item], Insert(view, item.value))
  {
    ValuesOneMore(items', items, item);
    InsertKeepsWellFormed(view, item.value);
    var map' := jobMap[item.value.id := item];
    RegisteredInsert(jobMap, item.value.id, item);
  }

  lemma TellsTake(items: seq<Item<Job>>, jobMap: map<string, Item<Job>>, view: SpokeView,
                  item: Item<Job>, items': seq<Item<Job>>)
    requires Tells(items, jobMap, view) && ContainerHeap.OneMore(items, items', item)
    ensures Tells(items', jobMap - {item.value.id}, Take(view, item.value))
    ensures item.value in view.pending
  {
    var j, map' := item.value, jobMap - {item.value.id};
    RegisteredRemove(jobMap, j.id);
    ValuesOneMore(items, items', item);
    TakeKeepsWellFormed(view, j);
    forall id <- map'
      ensures map'[id] in items' && map'[id].value.id == id
    {
      assert jobMap[id] != item;
    }
  }

  lemma TellsHead(items: seq<Item<Job>>, jobMap: map<string, Item<Job>>, view: SpokeView)
    requires Tells(items, jobMap, view) && ContainerHeap.Heap(items)
    ensures |view.pending| == |items|
    ensures items != [] ==> Head(view, items[0].value)
  {
    ValuesOf(items);
    forall k <- view.pending
      ensures items[0].value.triggerAt <= k.triggerAt
    {
      var x :| x in items && x.value == k;
      var n :| 0 <= n < |items| && items[n] == x;
      ContainerHeap.RootIsLeast(items, n);
      assert items[0] in items;
    }
    if items != [] {
      assert items[0] in items;
    }
  }

  /** The queue of the spoke whose part x is. It is fixed when x is made, so that spokes with different queues
      share no part. */
  ghost function Keeper(x: object): object? {
    if x is Spoke then (x as Spoke).jobQueue
    else if x is PriorityQueue<Job> then x
    else if x is Item<Job> then (x as Item<Job>).keeper
    else null
  }

  class Spoke {
    const bound: Bound
    const jobQueue: PriorityQueue<Job>
    var jobMap: map<string, Item<Job>>

    ghost var Repr: set<object>
    ghost var view: SpokeView

    ghost predicate Valid()
      reads this, Repr
      ensures Valid() ==> this in Repr
    {
      && this in Repr && jobQueue in Repr
      && (forall x <- jobQueue.items :: x in Repr)
      && (forall x <- Repr :: Keeper(x) == jobQueue)
      && jobQueue.Indexed() && ContainerHeap.Heap(jobQueue.items)
      && view.bound == bound && Tells(jobQueue.items, jobMap, view)
    }

    constructor (start: int, end: int)
      ensures Valid() && fresh(Repr)
      ensures view == EmptySpoke(Bound(start, end))
    {
      bound := Bound(start, end);
      jobMap := map[];
      var queue := new PriorityQueue<Job>();
      jobQueue := queue;
      Repr := {this, queue};
      view := EmptySpoke(Bound(start, end));
    }

    predicate IsJobInBounds(j: Job) {
      bound.ContainsTime(j.triggerAt)
    }

    /** Classifies the spoke. A spoke that has not started counts as Current: it is never Future. */
    function AsTemporalState(now: int): State {
      if bound.IsExpired(now) then Past else if bound.IsStarted(now) then Current else Current
    }

    function PendingJobsLen(): (n: nat)
      reads this, jobQueue
    {
      jobQueue.Len()
    }

    predicate OwnsJobLocked(id: string)
      reads this
    {
      id in jobMap
    }

    /** Wraps the spoke for the hub's heap, with its start as the priority. */
    method AsPriorityItem() returns (item: Item<Spoke>)
      ensures fresh(item) && item.value == this && item.priority == bound.start && item.keeper == null
    {
      item := new Item(this, bound.start, null);
    }

    lemma LenIsPending()
      requires Valid()
      ensures PendingJobsLen() == |view.pending|
    {
      TellsHead(jobQueue.items, jobMap, view);
    }

    lemma OwnsIsIndexed(id: string)
      requires Valid()
      ensures OwnsJobLocked(id) <==> id in view.index
    {
      assert Registered(jobMap).Keys == jobMap.Keys;
    }

    /** The jobs, in the order of the heap's slots. */
    ghost function Jobs(): seq<Job>
      reads this, jobQueue, jobQueue.items
    {
      Listing(jobQueue.items)
    }

    lemma JobsArePending()
      requires Valid()
      ensures multiset(Jobs()) == view.pending
    {
      ListingValues(jobQueue.items);
    }

    /** Takes the job in, unless its trigger lies outside the spoke. A job already held under the id loses its map
        entry. */
    method AddJobLocked(j: Job) returns (ok: bool)
      requires Valid()
      modifies Repr
      ensures Valid() && fresh(Repr - old(Repr))
      ensures ok == bound.ContainsTime(j.triggerAt)
      ensures view == if ok then Insert(old(view), j) else old(view)
    {
      if !IsJobInBounds(j) {
        return false;
      }
      var item := new Item(j, j.triggerAt, jobQueue);
      Enqueue(item);
      return true;
    }

    /** Enters a new item into the map and into the queue. */
    method Enqueue(item: Item<Job>)
      requires Valid() && item !in Repr && item.keeper == jobQueue
      requires item.priority == item.value.triggerAt && IsJobInBounds(item.value)
      modifies Repr, item
      ensures Valid() && Repr == old(Repr) + {item} && view == Insert(old(view), item.value)
    {
      ghost var items, was := jobQueue.items, jobMap;
      assert item !in items;
      jobMap := jobMap[item.value.id := item];
      ContainerHeap.Push(jobQueue, item);
      TellsInsert(items, was, view, item, jobQueue.items);
      Repr := Repr + {item};
      view := Insert(view, item.value);
    }

    /** Hands out a job with the least trigger if that trigger has been reached. */
    method NextLocked(now: int) returns (r: Option<Job>)
      requires Valid()
      modifies Repr
      ensures Valid() && Repr == old(Repr)
      ensures Gives(old(view), now, r, view)
    {
      TellsHead(jobQueue.items, jobMap, view);
      if jobQueue.Len() == 0 {
        return None;
      }
      var i := jobQueue.AtIdx(0);
      var j := i.value;
      if j.AsTemporalState(now) == Future {
        return None;
      }
      PopRoot();
      return Some(j);
    }

    /** Takes the root out of the map and out of the queue. */
    method PopRoot()
      requires Valid() && jobQueue.items != []
      modifies Repr
      ensures Valid() && Repr == old(Repr) && view == Take(old(view), old(jobQueue.items[0].value))
    {
      var j := jobQueue.AtIdx(0).value;
      jobMap := jobMap - {j.id};
      var item := ContainerHeap.Pop(jobQueue);
      ghost var w := Take(view, j);
      TellsTake(old(jobQueue.items), old(jobMap), view, item, jobQueue.items);
      assert Tells(jobQueue.items, jobMap, w);
      view := w;
    }

    /** Removes the job found under the id, through the slot its item remembers. */
    method CancelJobLocked(id: string) returns (r: Option<Job>)
      requires Valid()
      modifies Repr
      ensures Valid() && Repr == old(Repr)
      ensures Drops(old(view), id, r, view)
    {
      if id !in jobMap {
        return None;
      }
      var item := jobMap[id];
      Unlink(item);
      return Some(item.value);
    }

    /** Takes an item out of the map and, through the slot it remembers, out of the queue. */
    method Unlink(item: Item<Job>)
      requires Valid() && item in jobQueue.items
      modifies Repr
      ensures Valid() && Repr == old(Repr) && view == Take(old(view), item.value)
    {
      jobQueue.SlotOf(item);
      jobMap := jobMap - {item.value.id};
      var removed := ContainerHeap.Remove(jobQueue, item.index);
      TellsTake(old(jobQueue.items), old(jobMap), view, removed, jobQueue.items);
      view := Take(view, item.value);
    }

    function JobAtIdx(i: nat): Job
      requires i < PendingJobsLen()
      reads this, jobQueue
    {
      jobQueue.AtIdx(i).value
    }

    /** Offers every job to the persister, in the order of the heap's slots. A job that cannot be written is passed
        over. */
    method PersistLocked(p: Persister) returns (errors: nat)
      requires Valid() && p.Valid()
      modifies p
      ensures p !in Repr && p.Valid() && p.finalized == old(p.finalized)
      ensures p.offered == old(p.offered) + Jobs() && |p.refused| == |old(p.refused)| + errors
    {
      ghost var items := jobQueue.items;
      assert Keeper(p) == null;
      errors := 0;
      for i := 0 to jobQueue.Len()
        invariant p.Valid() && p.finalized == old(p.finalized) && |p.refused| == |old(p.refused)| + errors
        invariant p.offered == old(p.offered) + Listing(items[..i])
      {
        ListingNext(old(p.offered), items, i);
        var ok := p.Persist(jobQueue.AtIdx(i).value);
        if !ok {
          errors := errors + 1;
        }
      }
      assert items[..|items|] == items;
    }
  }
}

/** The hub: a past spoke, a current spoke, a heap of waiting spokes, and a map over the latter two. */
module Hubs {
  import opened Options
  import opened Temporal
  import opened Jobs
  import opened Queue
  import opened SpokeModel
  import opened Spokes
  import opened Stats
  import opened HubModel
  import opened HubInvariants
  import opened HubRestore
  import opened HubSweep
  import opened HubInspect
  import opened HubOvershoot
  import opened Persistence
  import ContainerHeap

  /** The map over the spokes has exactly the spokes of the heap and the current one, each under its own bound. */
  ghost predicate Linked(items: seq<Item<Spoke>>, spokeMap: map<Bound, Spoke>, past: Spoke, current: Spoke?,
                         parts: set<Spoke>)
  {
    && past in parts
    && (forall b <- spokeMap :: spokeMap[b] in parts && spokeMap[b].bound == b && spokeMap[b] != past)
    && (forall x <- items ::
          && x.priority == x.value.bound.start
          && x.value.bound in spokeMap && spokeMap[x.value.bound] == x.value != current)
    && (forall b <- spokeMap :: spokeMap[b] == current || exists x <- items :: x.value == spokeMap[b])
    && (forall x <- items, y <- items :: x.value == y.value ==> x == y)
    && (current != null ==> current.bound in spokeMap && spokeMap[current.bound] == current)
  }

  /** v shows what the spokes hold. */
  ghost predicate Shows(v: HubView, spokeMap: map<Bound, Spoke>, past: Spoke, current: Spoke?)
    reads past, current, spokeMap.Values
  {
    && v.past == past.view
    && v.current == (if current == null then None else Some(current.view))
    && (forall b :: b in v.queued <==> b in spokeMap && spokeMap[b] != current)
    && (forall b <- v.queued :: v.queued[b] == spokeMap[b].view)
  }

  /** As Shows, except that spoke s may have changed. */
  ghost predicate ShowsBut(v: HubView, spokeMap: map<Bound, Spoke>, past: Spoke, current: Spoke?, s: Spoke)
    reads past, current, spokeMap.Values
  {
    && (past != s ==> v.past == past.view)
    && (v.current.Some? <==> current != null)
    && (current != null && current != s ==> v.current.value == current.view)
    && (forall b :: b in v.queued <==> b in spokeMap && spokeMap[b] != current)
    && (forall b <- v.queued :: spokeMap[b] != s ==> v.queued[b] == spokeMap[b].view)
  }

  /** The spoke that the view knows as o. */
  ghost function At(spokeMap: map<Bound, Spoke>, past: Spoke, current: Spoke?, o: Owner): Spoke? {
    match o
    case Nobody => null
    case PastSpoke => past
    case CurrentSpoke => current
    case QueuedSpoke(b) => if b in spokeMap then spokeMap[b] else null
  }

  /** v with one entry for the id taken out of the filter. */
  function Cleared(sig: string -> Signature, v: HubView, id: string): HubView {
    v.(filter := v.filter - multiset{sig(id)})
  }

  /** Showing the spoke that has changed puts the view in order. */
  lemma ShowsAgain(v: HubView, items: seq<Item<Spoke>>, spokeMap: map<Bound, Spoke>, past: Spoke, current: Spoke?,
                   parts: set<Spoke>, s: Spoke, o: Owner)
    requires Linked(items, spokeMap, past, current, parts) && ShowsBut(v, spokeMap, past, current, s)
    requires HasSpoke(v, o) && s == At(spokeMap, past, current, o)
    ensures Shows(WithSpoke(v, o, s.view), spokeMap, past, current)
  {
  }

  /** Placing j leads from v to v', if ok; otherwise it has no place and nothing changes. */
  ghost predicate Adds(v: HubView, j: Job, now: int, ok: bool, v': HubView) {
    if ok then Place(v, j, now) == Some(v') else Place(v, j, now) == None && v' == v
  }

  lemma SameSpoke(v: HubView, o: Owner)
    requires HasSpoke(v, o)
    ensures WithSpoke(v, o, SpokeAt(v, o)) == v
  {
    if o.QueuedSpoke? {
      assert v.queued[o.bound := v.queued[o.bound]] == v.queued;
    }
  }

  lemma OwnerIsOwned(v: HubView, id: string, o: Owner)
    requires IsOwner(v, id, o)
    ensures Owned(v, id) <==> o != Nobody
  {
  }

  /** A spoke that gives, shown and counted, has served. */
  lemma GivesServes(sig: string -> Signature, v: HubView, o: Owner, now: int, r: Option<Job>, s: SpokeView)
    requires HasSpoke(v, o) && Gives(SpokeAt(v, o), now, r, s)
    ensures var w := WithSpoke(v, o, s);
            if r.Some? then
              Serve(sig, v, o, now, Cleared(sig, w.(stats := JobRemoved(w.stats)), r.value.id), r)
            else
              Serve(sig, v, o, now, w, r)
  {
    if r.Some? {
      assert Ready(SpokeAt(v, o), now);
    }
  }

  /** A spoke that drops the job of its owner, shown and counted, has cancelled. */
  lemma DropsCancels(sig: string -> Signature, v: HubView, id: string, o: Owner, s: SpokeView, r: Option<Job>)
    requires IsOwner(v, id, o) && o != Nobody && Drops(SpokeAt(v, o), id, r, s)
    ensures var w := WithSpoke(v, o, s);
            CancelAt(sig, v, id, o, Cleared(sig, w.(stats := JobRemoved(w.stats)), id), r)
  {
  }

  lemma FoundInMap(v: HubView, spokeMap: map<Bound, Spoke>, past: Spoke, current: Spoke?, id: string, o: Owner)
    requires Shows(v, spokeMap, past, current)
    requires id !in past.view.index && (current != null ==> id !in current.view.index)
    requires match o
             case Nobody => forall b <- spokeMap :: id !in spokeMap[b].view.index
             case QueuedSpoke(b) => b in spokeMap && id in spokeMap[b].view.index
             case _ => false
    ensures IsOwner(v, id, o)
  {
  }

  /** The hub without its current spoke. */
  lemma WithoutCurrent(v: HubView, w: HubView, items: seq<Item<Spoke>>, spokeMap: map<Bound, Spoke>, past: Spoke,
                       current: Spoke, parts: set<Spoke>)
    requires Linked(items, spokeMap, past, current, parts) && Shows(v, spokeMap, past, current)
    requires w.past == v.past && w.current == None && w.queued == v.queued
    ensures Linked(items, spokeMap - {current.bound}, past, null, parts)
    ensures Shows(w, spokeMap - {current.bound}, past, null)
  {
  }

  /** The hub with a waiting spoke as its current one. */
  lemma WithFirst(v: HubView, items: seq<Item<Spoke>>, items': seq<Item<Spoke>>, item: Item<Spoke>,
                  spokeMap: map<Bound, Spoke>, past: Spoke, parts: set<Spoke>)
    requires Linked(items, spokeMap, past, null, parts) && Shows(v, spokeMap, past, null)
    requires ContainerHeap.OneMore(items, items', item) && item !in items'
    ensures Linked(items', spokeMap, past, item.value, parts)
    ensures item.value.bound in v.queued && Shows(Promote(v, item.value.bound), spokeMap, past, item.value)
  {
  }

  /** The links do not mind further spokes. */
  lemma LinkedMore(items: seq<Item<Spoke>>, spokeMap: map<Bound, Spoke>, past: Spoke, current: Spoke?,
                   parts: set<Spoke>, parts': set<Spoke>)
    requires Linked(items, spokeMap, past, current, parts) && parts <= parts'
    ensures Linked(items, spokeMap, past, current, parts')
  {
  }

  /** The hub with one more waiting spoke. */
  lemma WithMore(v: HubView, items: seq<Item<Spoke>>, items': seq<Item<Spoke>>, item: Item<Spoke>,
                 spokeMap: map<Bound, Spoke>, past: Spoke, current: Spoke?, parts: set<Spoke>)
    requires Linked(items, spokeMap, past, current, parts) && Shows(v, spokeMap, past, current)
    requires ContainerHeap.OneMore(items', items, item) && item !in items && item.priority == item.value.bound.start
    requires item.value in parts && item.value.bound !in spokeMap && item.value != past && item.value != current
    requires forall b <- spokeMap :: spokeMap[b] != item.value
    ensures var s := item.value;
            && Linked(items', spokeMap[s.bound := s], past, current, parts)
            && Shows(v.(queued := v.queued[s.bound := s.view]), spokeMap[s.bound := s], past, current)
  {
  }

  /** The bounds of the spokes, slot by slot. */
  ghost function Bounds(items: seq<Item<Spoke>>): seq<Bound> {
    seq(|items|, k requires 0 <= k < |items| => items[k].value.bound)
  }

  lemma WaitingBounds(v: HubView, items: seq<Item<Spoke>>, spokeMap: map<Bound, Spoke>, past: Spoke, current: Spoke?,
                      parts: set<Spoke>)
    requires Linked(items, spokeMap, past, current, parts) && Shows(v, spokeMap, past, current)
    requires forall m, n :: 0 <= m < n < |items| ==> items[m] != items[n]
    ensures Lists(v.queued, Bounds(items))
    ensures forall x <- items ::
              x.value in parts && x.value.bound in v.queued && v.queued[x.value.bound] == x.value.view
  {
    var bounds := Bounds(items);
    forall b <- v.queued
      ensures b in bounds
    {
      var x :| x in items && x.value == spokeMap[b];
      var k :| 0 <= k < |items| && items[k] == x;
      assert bounds[k] == b;
    }
  }

  lemma AllOffered(v: HubView, was: multiset<Job>, now: multiset<Job>)
    requires now == was + QueuedPending(v.queued) + v.past.pending + CurrentPending(v)
    ensures now == was + Pending(v)
  {
  }

  lemma OtherSpokesShown(v: HubView, items: seq<Item<Spoke>>, spokeMap: map<Bound, Spoke>, past: Spoke, current: Spoke?,
                         parts: set<Spoke>)
    requires Linked(items, spokeMap, past, current, parts) && Shows(v, spokeMap, past, current)
    requires forall s <- parts :: s.Valid()
    ensures OtherSpokes(v).Keys == spokeMap.Keys
    ensures AllLook(spokeMap, OtherSpokes(v))
  {
  }

  lemma NoneQueued(v: HubView, items: seq<Item<Spoke>>, spokeMap: map<Bound, Spoke>, past: Spoke, parts: set<Spoke>)
    requires Linked(items, spokeMap, past, null, parts) && Shows(v, spokeMap, past, null)
    ensures v.queued == map[] <==> items == []
  {
    if items != [] {
      assert items[0] in items;
    }
  }

  lemma EarliestSpoke(v: HubView, items: seq<Item<Spoke>>, item: Item<Spoke>, spokeMap: map<Bound, Spoke>,
                      past: Spoke, parts: set<Spoke>)
    requires Linked(items, spokeMap, past, null, parts) && Shows(v, spokeMap, past, null)
    requires item in items && forall x <- items :: item.priority <= x.priority
    ensures Earliest(v.queued, item.value.bound)
  {
  }

  /** Valid spokes with different queues share no object. */
  lemma PartsApart(parts: set<Spoke>, s: Spoke)
    requires s in parts && forall t <- parts :: t.Valid()
    requires forall t <- parts :: s.jobQueue == t.jobQueue ==> s == t
    ensures forall t <- parts, x <- t.Repr :: t != s ==> x !in s.Repr
  {
  }

  /** The heap of spokes is not part of any spoke. */
  lemma HeapApart(parts: set<Spoke>, spokes: PriorityQueue<Spoke>, items: seq<Item<Spoke>>)
    requires (forall t <- parts :: t.Valid()) && Keeper(spokes) == null && forall x <- items :: Keeper(x) == null
    ensures forall t <- parts, x <- t.Repr :: x != spokes && x !in items
  {
  }

  /** The spokes in the heap are in order, and these are their jobs. */
  ghost predicate Listed(items: seq<Item<Spoke>>, lists: seq<seq<Job>>)
    reads set x <- items :: x.value, set x <- items, y <- x.value.Repr :: y
  {
    |lists| == |items| && forall i :: 0 <= i < |items| ==> HasJobs(items[i].value, lists[i])
  }

  /** Spoke s is in order and has these jobs, slot by slot. */
  ghost predicate HasJobs(s: Spoke, js: seq<Job>)
    reads s, s.Repr
  {
    s.Valid() && s.Jobs() == js
  }

  /** The jobs of the first n spokes, as they are shown in queued. */
  lemma {:induction false} ListJobs(items: seq<Item<Spoke>>, queued: map<Bound, SpokeView>, n: nat)
    returns (lists: seq<seq<Job>>)
    requires n <= |items| && forall x <- items :: x.value.Valid()
    requires forall x <- items :: x.value.bound in queued && queued[x.value.bound] == x.value.view
    ensures |lists| == n && forall i :: 0 <= i < n ==> HasJobs(items[i].value, lists[i])
    ensures forall i :: 0 <= i < n ==> multiset(lists[i]) == queued[items[i].value.bound].pending
  {
    if n == 0 {
      return [];
    }
    var k := n - 1;
    lists := ListJobs(items, queued, k);
    var js := JobsOf(items[k].value);
    lists := lists + [js];
  }

  lemma JobsOf(s: Spoke) returns (js: seq<Job>)
    requires s.Valid()
    ensures HasJobs(s, js) && multiset(js) == s.view.pending
  {
    s.JobsArePending();
    js := s.Jobs();
  }

  /** Offers every job of the spoke in slot i to the persister. */
  method PersistSlot(items: seq<Item<Spoke>>, ghost lists: seq<seq<Job>>, i: nat, p: Persister) returns (errors: nat)
    requires Listed(items, lists) && i < |items| && p.Valid()
    modifies p
    ensures Listed(items, lists) && p.Valid() && p.finalized == old(p.finalized)
    ensures p.offered == old(p.offered) + lists[i] && |p.refused| == |old(p.refused)| + errors
  {
    errors := items[i].value.PersistLocked(p);
  }

  /** Offers every job of the spokes to the persister, in the order of the heap's slots. */
  method PersistSpokes(spokes: PriorityQueue<Spoke>, ghost lists: seq<seq<Job>>, p: Persister) returns (errors: nat)
    requires Listed(spokes.items, lists) && p.Valid()
    modifies p
    ensures p.Valid() && p.finalized == old(p.finalized) && |p.refused| == |old(p.refused)| + errors
    ensures p.offered == Plus(old(p.offered), lists, |lists|)
  {
    var items := spokes.items;
    errors := 0;
    for i := 0 to |items|
      invariant Listed(items, lists)
      invariant p.offered == Plus(old(p.offered), lists, i) && |p.refused| == |old(p.refused)| + errors
      invariant p.Valid() && p.finalized == old(p.finalized)
    {
      var more := PersistSlot(items, lists, i, p);
      errors := errors + more;
    }
  }

  /** Emits jobs of spoke s in the order of its heap's slots, until n have been emitted or there are no more. */
  method Emit(s: Spoke, n: int) returns (js: seq<Job>)
    requires s.Valid()
    ensures |js| == Quota(|s.Jobs()|, n) && js == s.Jobs()[..|js|]
  {
    js := [];
    var len := s.PendingJobsLen();
    if len > 0 {
      ListingAt(s.jobQueue.items, 0);
    }
    for i := 0 to len
      invariant |s.Jobs()| == len && |js| == i && js == s.Jobs()[..i] && (i > 0 ==> i < n)
    {
      ListingAt(s.jobQueue.items, i);
      js := js + [s.JobAtIdx(i)];
      if n - |js| <= 0 {
        return;
      }
    }
  }

  /** Spoke s is in order and shown as w. */
  ghost predicate Looks(s: Spoke, w: SpokeView)
    reads s, s.Repr
  {
    s.Valid() && s.view == w
  }

  /** The spoke of bound b, if there is one, is in order and shown. */
  ghost predicate LooksAt(spokeMap: map<Bound, Spoke>, others: map<Bound, SpokeView>, b: Bound)
    reads spokeMap.Values, set s <- spokeMap.Values, x <- s.Repr :: x
  {
    b in spokeMap && b in others ==> Looks(spokeMap[b], others[b])
  }

  /** Every spoke in the map is in order and shown. */
  ghost predicate AllLook(spokeMap: map<Bound, Spoke>, others: map<Bound, SpokeView>)
    reads spokeMap.Values, set s <- spokeMap.Values, x <- s.Repr :: x
  {
    forall b :: LooksAt(spokeMap, others, b)
  }

  /** One step of the walk: the spoke of bound b emits its share. */
  method WalkOne(ghost v: HubView, spokeMap: map<Bound, Spoke>, b: Bound, ghost bounds: set<Bound>, ghost n0: int,
                 ghost first: seq<Job>, js: seq<Job>, n: int, ghost a: Books, ghost shares: seq<seq<Job>>)
    returns (js': seq<Job>, n': int, ghost a': Books, ghost share: seq<Job>)
    requires b in spokeMap && b in OtherSpokes(v) && AllLook(spokeMap, OtherSpokes(v))
    requires b in bounds && Walking(v, bounds, n0, js, n, a)
    requires Shared(OtherSpokes(v), a.order, shares, first, n0 - |v.past.pending|, js)
    ensures Walking(v, bounds - {b}, n0, js', n', a') && a'.order == a.order + [b]
    ensures Shared(OtherSpokes(v), a.order + [b], shares + [share], first, n0 - |v.past.pending|, js')
  {
    var s := spokeMap[b];
    assert LooksAt(spokeMap, OtherSpokes(v), b);
    s.JobsArePending();
    var more := Emit(s, n);
    share := more;
    a' := WalkNext(v, bounds, n0, js, n, a, b, s.Jobs(), |more|);
    ShareOfWalk(v, bounds, n0, first, js, n, a, shares, b, s.Jobs(), |more|);
    js', n' := js + more, n - |more|;
  }

  /** The part of a listing that the spokes in the map contribute, n0 - n jobs having been listed before. */
  method WalkMap(ghost v: HubView, spokeMap: map<Bound, Spoke>, ghost n0: int, past: seq<Job>, n: int)
    returns (js: seq<Job>, ghost l: Parts)
    requires IsShare(past, v.past, n0)
    requires spokeMap.Keys == OtherSpokes(v).Keys && AllLook(spokeMap, OtherSpokes(v))
    requires n0 > |v.past.pending|
    requires Walking(v, OtherSpokes(v).Keys, n0, past, n, Books(OtherSpokes(v), multiset{}, {}, []))
    ensures FairListing(v, n0, js) && IsListing(v, n0, js, l) && |js| == ListingSize(v, l.order, n0)
  {
    js := past;
    ghost var shares: seq<seq<Job>> := [];
    var m, bounds := n, spokeMap.Keys;
    ghost var a := Books(OtherSpokes(v), multiset{}, {}, []);
    while bounds != {}
      invariant bounds <= spokeMap.Keys && Walking(v, bounds, n0, js, m, a) && AllLook(spokeMap, OtherSpokes(v))
      invariant Shared(OtherSpokes(v), a.order, shares, past, n0 - |v.past.pending|, js)
    {
      var b :| b in bounds;
      ghost var share;
      js, m, a, share := WalkOne(v, spokeMap, b, bounds, n0, past, js, m, a, shares);
      shares := shares + [share];
      bounds := bounds - {b};
    }
    WalkDone(v, n0, past, js, m, a, shares);
    l := Parts(past, a.order, shares);
  }

  /** Makes a spoke for bound b that holds j, if the bound does, and its item for the heap. */
  method SpokeFor(j: Job, b: Bound) returns (s: Spoke, item: Item<Spoke>, ok: bool)
    ensures s.Valid() && fresh(s.Repr) && fresh(item)
    ensures Keeper(item) == null && item.value == s && item.priority == s.bound.start
    ensures s.bound == b && ok == b.ContainsTime(j.triggerAt)
    ensures s.view == if ok then Insert(EmptySpoke(b), j) else EmptySpoke(b)
  {
    s := new Spoke(b.start, b.end);
    item := s.AsPriorityItem();
    ok := s.AddJobLocked(j);
  }

  class Hub {
    const sig: string -> Signature
    const spokeSpan: int
    const spokes: PriorityQueue<Spoke>
    const pastSpoke: Spoke
    const stats: Counters
    var jobFilter: multiset<Signature>
    var spokeMap: map<Bound, Spoke>
    var currentSpoke: Spoke?

    ghost var view: HubView
    /** The past spoke and all others made so far. */
    ghost var parts: set<Spoke>

    /** All objects the hub is made of. */
    ghost var Repr: set<object>

    /** Every spoke is valid, and no two share a queue. */
    ghost predicate PartsFine()
      reads this`parts, parts, set t <- parts, x <- t.Repr :: x
    {
      && (forall s <- parts, t <- parts :: s.jobQueue == t.jobQueue ==> s == t)
      && (forall t <- parts :: t.Valid())
    }

    /** The objects are in order: the heap is a heap, every spoke is valid, and no two spokes share a part. */
    ghost predicate Sturdy()
      reads this`Repr, this`parts, Repr - {this, stats}
    {
      && this in Repr && spokes in Repr && stats in Repr && parts <= Repr
      && (forall x <- spokes.items :: x in Repr)
      && Keeper(this) == Keeper(spokes) == Keeper(stats) == null && (forall x <- spokes.items :: Keeper(x) == null)
      && (forall t <- parts, x <- t.Repr :: x in Repr && x != this && x != stats)
      && spokes.Indexed() && ContainerHeap.Heap(spokes.items)
      && PartsFine()
    }

    ghost predicate Valid()
      reads this, Repr
      ensures Valid() ==> this in Repr
    {
      && this in Repr && spokes in Repr && Sturdy()
      && Linked(spokes.items, spokeMap, pastSpoke, currentSpoke, parts)
      && Shows(view, spokeMap, pastSpoke, currentSpoke)
      && view.span == spokeSpan && view.filter == jobFilter && view.stats == stats.s
    }

    /** A hub of one valid spoke, the past one, with nothing in it is in order. */
    lemma NewIsValid()
      requires spokes.items == [] && spokeMap == map[] && currentSpoke == null && parts == {pastSpoke}
      requires Repr == {this} + (pastSpoke.Repr + {spokes, stats}) && pastSpoke.Valid()
      requires Keeper(this) == Keeper(spokes) == Keeper(stats) == null && this !in pastSpoke.Repr
      requires stats !in pastSpoke.Repr
      requires view == HubView(spokeSpan, pastSpoke.view, None, map[], jobFilter, stats.s)
      ensures Valid()
    {
    }

    constructor (spokeSpan: int, now: int, sig: string -> Signature)
      ensures Valid() && fresh(Repr)
      ensures this.sig == sig && view == NewHub(spokeSpan, now)
      ensures pastSpoke.bound == Bound(now - 3_153_600_000_000_000_000, now + 3_153_600_000_000_000_000)
    {
      var past := new Spoke(now - HUNDRED_YEARS, now + HUNDRED_YEARS);
      var queue := new PriorityQueue<Spoke>();
      var counters := new Counters();
      ghost var all: set<object> := past.Repr + {queue, counters};
      assert fresh(all);
      ContainerHeap.Init(queue);
      this.sig := sig;
      this.spokeSpan := spokeSpan;
      jobFilter := multiset{};
      spokeMap := map[];
      spokes := queue;
      pastSpoke := past;
      stats := counters;
      currentSpoke := null;
      view := NewHub(spokeSpan, now);
      parts := {past};
      Repr := {this} + all;
      new;
      NewIsValid();
    }

    /** A hub whose objects have not changed is in order as before. */
    twostate lemma StillValid()
      requires old(Valid()) && unchanged(old(Repr))
      ensures Valid()
    {
    }

    /** As Sturdy, except that spoke s may have made new objects. */
    ghost predicate SturdyBut(s: Spoke)
      reads this`Repr, this`parts, Repr - {this, stats}, s, s.Repr
    {
      && this in Repr && spokes in Repr && stats in Repr && parts <= Repr && s in parts
      && (forall x <- spokes.items :: x in Repr)
      && Keeper(this) == Keeper(spokes) == Keeper(stats) == null && (forall x <- spokes.items :: Keeper(x) == null)
      && (forall t <- parts, x <- t.Repr :: t != s ==> x in Repr && x != this && x != stats)
      && spokes.Indexed() && ContainerHeap.Heap(spokes.items)
      && PartsFine()
    }

    /** Spoke s, known to the view as o, may have been at work; all else is shown. */
    ghost predicate Showing(s: Spoke, o: Owner)
      reads this`view, this`spokeMap, this`currentSpoke, this`parts, this`jobFilter, spokes`items, stats
      reads pastSpoke, currentSpoke, spokeMap.Values, s
    {
      && Linked(spokes.items, spokeMap, pastSpoke, currentSpoke, parts)
      && HasSpoke(view, o) && s == At(spokeMap, pastSpoke, currentSpoke, o)
      && ShowsBut(view, spokeMap, pastSpoke, currentSpoke, s)
      && view.span == spokeSpan && view.filter == jobFilter && view.stats == stats.s
    }

    /** Brings the view up to date with spoke s. */
    ghost method Show(s: Spoke, o: Owner)
      requires this in Repr && Sturdy() && Showing(s, o)
      modifies this`view
      ensures Valid() && view == WithSpoke(old(view), o, s.view)
    {
      ShowsAgain(view, spokes.items, spokeMap, pastSpoke, currentSpoke, parts, s, o);
      view := WithSpoke(view, o, s.view);
    }

    /** Takes the new objects of spoke s into account. */
    ghost method Grow(s: Spoke)
      requires SturdyBut(s)
      modifies this`Repr
      ensures this in Repr && Sturdy() && Repr == old(Repr) + s.Repr
    {
      Repr := Repr + s.Repr;
    }

    /** Offers j to spoke s, known to the view as o. */
    method AddTo(s: Spoke, ghost o: Owner, j: Job) returns (ok: bool)
      requires Valid() && HasSpoke(view, o) && s == At(spokeMap, pastSpoke, currentSpoke, o)
      modifies Repr
      ensures Valid() && forall x <- Repr :: x in old(Repr) || fresh(x)
      ensures HasSpoke(old(view), o) && view == WithSpoke(old(view), o, s.view)
      ensures ok == SpokeAt(old(view), o).bound.ContainsTime(j.triggerAt)
      ensures s.view == if ok then Insert(SpokeAt(old(view), o), j) else SpokeAt(old(view), o)
    {
      ok := AddFrom(s, j);
      Grow(s);
      Show(s, o);
    }

    /** Offers j to spoke s; no other spoke changes. */
    method AddFrom(s: Spoke, j: Job) returns (ok: bool)
      requires this in Repr && Sturdy() && s in parts
      modifies s.Repr
      ensures unchanged(this, spokes, stats) && SturdyBut(s) && fresh(s.Repr - old(s.Repr))
      ensures ok == old(s.view).bound.ContainsTime(j.triggerAt)
      ensures s.view == if ok then Insert(old(s.view), j) else old(s.view)
      ensures forall t <- parts :: t != s ==> t.view == old(t.view)
    {
      PartsApart(parts, s);
      ok := s.AddJobLocked(j);
      assert unchanged(this, spokes, stats);
      assert SturdyBut(s);
    }

    /** Cancels in spoke s; no other spoke changes. */
    method CancelFrom(s: Spoke, id: string) returns (r: Option<Job>)
      requires this in Repr && Sturdy() && s in parts
      modifies s.Repr
      ensures unchanged(this, spokes, stats) && this in Repr && Sturdy()
      ensures Drops(old(s.view), id, r, s.view) && forall t <- parts :: t != s ==> t.view == old(t.view)
    {
      PartsApart(parts, s);
      r := s.CancelJobLocked(id);
      assert unchanged(this, spokes, stats);
      assert Sturdy();
    }

    /** Asks spoke s for its next job; no other spoke changes. */
    method NextFrom(s: Spoke, now: int) returns (r: Option<Job>)
      requires this in Repr && Sturdy() && s in parts
      modifies s.Repr
      ensures unchanged(this, spokes, stats) && this in Repr && Sturdy()
      ensures Gives(old(s.view), now, r, s.view) && forall t <- parts :: t != s ==> t.view == old(t.view)
    {
      PartsApart(parts, s);
      ghost var w := s.view;
      r := s.NextLocked(now);
      assert Gives(w, now, r, s.view);
      assert unchanged(this, spokes, stats);
      assert Sturdy();
    }

    /** Cancels in spoke s, known to the view as o. */
    method CancelIn(s: Spoke, ghost o: Owner, id: string) returns (r: Option<Job>)
      requires Valid() && HasSpoke(view, o) && s == At(spokeMap, pastSpoke, currentSpoke, o)
      modifies Repr
      ensures Valid() && Repr == old(Repr)
      ensures HasSpoke(old(view), o) && Drops(SpokeAt(old(view), o), id, r, s.view)
      ensures view == WithSpoke(old(view), o, s.view)
    {
      r := CancelFrom(s, id);
      Show(s, o);
    }

    /** Asks spoke s, known to the view as o, for its next job. */
    method NextIn(s: Spoke, ghost o: Owner, now: int) returns (r: Option<Job>)
      requires Valid() && HasSpoke(view, o) && s == At(spokeMap, pastSpoke, currentSpoke, o)
      modifies Repr
      ensures Valid() && Repr == old(Repr)
      ensures HasSpoke(old(view), o) && Gives(SpokeAt(old(view), o), now, r, s.view)
      ensures view == WithSpoke(old(view), o, s.view)
    {
      r := NextFrom(s, now);
      Show(s, o);
    }

    /** Counts a job that leaves the hub. */
    method CountRemoved()
      requires Valid()
      modifies stats, this`view
      ensures Valid() && view == old(view).(stats := JobRemoved(old(view).stats))
    {
      stats.DecrJob();
      view := view.(stats := stats.s);
      assert Sturdy();
    }

    /** Forgets one occurrence of the id's signature; there may be none. */
    method DeleteFromFilter(id: string)
      requires Valid()
      modifies this`jobFilter, this`view
      ensures Valid() && view == old(view).(filter := old(view).filter - multiset{sig(id)})
    {
      jobFilter := jobFilter - multiset{sig(id)};
      view := view.(filter := jobFilter);
      assert Sturdy();
    }

    /** Takes the next due job, if there is one, from spoke s. */
    method TakeNext(s: Spoke, ghost o: Owner, now: int) returns (r: Option<Job>)
      requires Valid() && HasSpoke(view, o) && s == At(spokeMap, pastSpoke, currentSpoke, o)
      modifies Repr
      ensures Valid() && Repr == old(Repr)
      ensures Serve(sig, old(view), o, now, if r.Some? then Cleared(sig, view, r.value.id) else view, r)
    {
      r := NextIn(s, o, now);
      GivesServes(sig, old(view), o, now, r, s.view);
      if r.Some? {
        CountRemoved();
      }
    }

    /** Whether spoke s owns the id. */
    method Finds(s: Spoke, id: string) returns (found: bool)
      requires Valid() && s in parts
      ensures found <==> id in s.view.index
    {
      s.OwnsIsIndexed(id);
      found := s.OwnsJobLocked(id);
    }

    /** Walks through the map, in no particular order, until a spoke finds the id. */
    method SearchMap(id: string) returns (s: Spoke?, ghost o: Owner)
      requires Valid()
      ensures match o
              case Nobody => s == null && forall b <- spokeMap :: id !in spokeMap[b].view.index
              case QueuedSpoke(b) => b in spokeMap && s == spokeMap[b] && id in s.view.index
              case _ => false
    {
      var bounds := spokeMap.Keys;
      while bounds != {}
        invariant bounds <= spokeMap.Keys
        invariant forall b <- spokeMap :: b !in bounds ==> id !in spokeMap[b].view.index
      {
        var b :| b in bounds;
        var found := Finds(spokeMap[b], id);
        if found {
          return spokeMap[b], QueuedSpoke(b);
        }
        bounds := bounds - {b};
      }
      return null, Nobody;
    }

    /** Looks for the spoke that finds a job under the id: first the past one, then the current one, then all in the
        map. */
    method FindOwnerSpoke(id: string) returns (s: Spoke?, ghost o: Owner)
      requires Valid()
      ensures IsOwner(view, id, o) && s == At(spokeMap, pastSpoke, currentSpoke, o)
      ensures s == null <==> o == Nobody
    {
      var found := Finds(pastSpoke, id);
      if found {
        return pastSpoke, PastSpoke;
      }
      if currentSpoke != null {
        found := Finds(currentSpoke, id);
        if found {
          return currentSpoke, CurrentSpoke;
        }
      }
      s, o := SearchMap(id);
      FoundInMap(view, spokeMap, pastSpoke, currentSpoke, id, o);
    }

    /** Removes the job from spoke s, its owner. */
    method CancelFound(s: Spoke, ghost o: Owner, id: string) returns (r: Option<Job>)
      requires Valid() && IsOwner(view, id, o) && o != Nobody && s == At(spokeMap, pastSpoke, currentSpoke, o)
      modifies Repr
      ensures Valid() && Repr == old(Repr)
      ensures IsOwner(old(view), id, o) && CancelAt(sig, old(view), id, o, Cleared(sig, view, id), r)
    {
      r := CancelIn(s, o, id);
      DropsCancels(sig, old(view), id, o, s.view, r);
      CountRemoved();
    }

    /** Removes the job from its spoke, if it has one. No owner is no error. */
    method CancelJob(id: string) returns (r: Option<Job>, ghost o: Owner)
      requires Valid()
      modifies Repr
      ensures Valid() && Repr == old(Repr)
      ensures IsOwner(old(view), id, o) && CancelAt(sig, old(view), id, o, Cleared(sig, view, id), r)
    {
      var s;
      s, o := FindOwnerSpoke(id);
      if s == null {
        return None, o;
      }
      r := CancelFound(s, o, id);
    }

    /** Cancels the job if the filter lets its id through, and deletes from the filter even if no job was found. */
    method CancelJobLocked(id: string) returns (r: Option<Job>)
      requires Valid()
      modifies Repr
      ensures Valid() && Repr == old(Repr)
      ensures CancelStep(sig, old(view), id, view, r)
    {
      if sig(id) !in jobFilter {
        return None;
      }
      ghost var o;
      r, o := CancelJob(id);
      DeleteFromFilter(id);
    }

    /** Takes spoke s out of the map. */
    method DeleteSpokeFromMap(s: Spoke)
      modifies this`spokeMap, stats
      ensures spokeMap == old(spokeMap) - {s.bound} && stats.s == SpokeRemoved(old(stats.s))
    {
      spokeMap := spokeMap - {s.bound};
      stats.DecrSpoke();
    }

    /** Gives the hub another current spoke, and the view that goes with it. */
    method SetCurrent(current: Spoke?, ghost w: HubView)
      requires this in Repr && Sturdy()
      requires Linked(spokes.items, spokeMap, pastSpoke, current, parts) && Shows(w, spokeMap, pastSpoke, current)
      requires w.span == spokeSpan && w.filter == jobFilter && w.stats == stats.s
      modifies this`currentSpoke, this`view
      ensures Valid() && currentSpoke == current && view == w
    {
      currentSpoke := current;
      view := w;
      assert Sturdy();
    }

    /** Lets go of the current spoke. */
    method DropCurrent()
      requires Valid() && currentSpoke != null
      modifies this`spokeMap, this`currentSpoke, this`view, stats
      ensures Valid() && currentSpoke == null
      ensures view == old(view).(current := None, stats := SpokeRemoved(old(view).stats))
    {
      ghost var w := view.(current := None, stats := SpokeRemoved(view.stats));
      WithoutCurrent(view, w, spokes.items, spokeMap, pastSpoke, currentSpoke, parts);
      DeleteSpokeFromMap(currentSpoke);
      SetCurrent(null, w);
    }

    /** Lets go of the current spoke if it is empty and has expired. */
    method DropExpired(now: int)
      requires Valid() && currentSpoke != null
      modifies this`spokeMap, this`currentSpoke, this`view, stats
      ensures Valid() && view == Expire(old(view), now)
      ensures currentSpoke == null <==>
              old(currentSpoke.view.pending) == multiset{} && old(currentSpoke.bound.end) < now
    {
      currentSpoke.LenIsPending();
      if currentSpoke.PendingJobsLen() == 0 && currentSpoke.AsTemporalState(now) == Past {
        DropCurrent();
      }
    }

    /** Runs heap.Init on the spokes. They form a heap already, so that nothing moves. */
    method FixHeap()
      requires this in Repr && Sturdy()
      modifies spokes, spokes.items
      ensures this in Repr && Sturdy() && spokes.items == old(spokes.items)
    {
      HeapApart(parts, spokes, spokes.items);
      ContainerHeap.Init(spokes);
      assert PartsFine();
    }

    /** Takes the first spoke out of the heap. */
    method PopSpoke() returns (item: Item<Spoke>)
      requires this in Repr && Sturdy() && spokes.items != []
      modifies spokes, spokes.items
      ensures this in Repr && Sturdy() && ContainerHeap.OneMore(old(spokes.items), spokes.items, item)
      ensures item !in spokes.items && item == old(spokes.items)[0]
      ensures forall x <- old(spokes.items) :: item.priority <= x.priority
    {
      HeapApart(parts, spokes, spokes.items);
      item := ContainerHeap.Pop(spokes);
      assert PartsFine();
    }

    /** Makes the first spoke of the heap the current one. */
    method Pin() returns (ghost b: Bound)
      requires Valid() && currentSpoke == null && spokes.items != []
      modifies this`currentSpoke, this`view, spokes, spokes.items
      ensures Valid() && currentSpoke != null
      ensures Earliest(old(view).queued, b) && view == Promote(old(view), b)
    {
      var item := PopSpoke();
      b := item.value.bound;
      WithFirst(view, old(spokes.items), spokes.items, item, spokeMap, pastSpoke, parts);
      EarliestSpoke(view, old(spokes.items), item, spokeMap, pastSpoke, parts);
      SetCurrent(item.value, Promote(view, b));
    }

    /** Looks for a new current spoke: the first of the heap, if there is one. It is pinned whether it has started or
        not, since no spoke is ever in state Future. */
    method PinNext(now: int) returns (pinned: bool, ghost b: Bound)
      requires Valid() && currentSpoke == null
      modifies this`currentSpoke, this`view, spokes, spokes.items
      ensures Valid() && (pinned <==> currentSpoke != null) && (pinned <==> old(view).queued != map[])
      ensures if pinned then Earliest(old(view).queued, b) && view == Promote(old(view), b) else view == old(view)
    {
      b := Bound(0, 0);
      FixHeap();
      NoneQueued(view, spokes.items, spokeMap, pastSpoke, parts);
      if spokes.Len() == 0 {
        return false, b;
      }
      var candidate := spokes.AtIdx(0).value;
      if candidate.AsTemporalState(now) == Future {
        return false, b;
      }
      b := Pin();
      pinned := true;
    }

    /** The search for a job beyond the past spoke. */
    method NextBeyondPast(now: int) returns (r: Option<Job>)
      requires Valid()
      modifies Repr
      ensures Valid() && Repr == old(Repr)
      ensures NextFromCurrent(sig, old(view), now, if r.Some? then Cleared(sig, view, r.value.id) else view, r)
    {
      if currentSpoke == null {
        var pinned;
        ghost var b;
        pinned, b := PinNext(now);
        if !pinned {
          return None;
        }
      }
      r := TakeNext(currentSpoke, CurrentSpoke, now);
    }

    /** The past spoke has precedence over all others. */
    method Next(pastNow: int, expiryNow: int, readyNow: int) returns (r: Option<Job>)
      requires Valid()
      modifies Repr
      ensures Valid() && Repr == old(Repr)
      ensures NextStep(sig, old(view), pastNow, expiryNow, readyNow,
                       if r.Some? then Cleared(sig, view, r.value.id) else view, r)
    {
      r := TakeNext(pastSpoke, PastSpoke, pastNow);
      if r.Some? {
        return;
      }
      if currentSpoke != null {
        DropExpired(expiryNow);
      }
      r := NextBeyondPast(readyNow);
    }

    /** Hands out the next due job. The clock is read once for each of the three looks at it. */
    method NextLocked(pastNow: int, expiryNow: int, readyNow: int) returns (r: Option<Job>)
      requires Valid()
      modifies Repr
      ensures Valid() && Repr == old(Repr)
      ensures NextStep(sig, old(view), pastNow, expiryNow, readyNow, view, r)
    {
      r := Next(pastNow, expiryNow, readyNow);
      if r.Some? {
        DeleteFromFilter(r.value.id);
      }
    }

    /** Counts the objects of a new spoke, and its item for the heap, among those of the hub. */
    ghost method Join(s: Spoke, item: Item<Spoke>)
      requires this in Repr && Sturdy() && s.Valid() && forall t <- parts :: t.jobQueue != s.jobQueue
      modifies this`parts, this`Repr
      ensures this in Repr && Sturdy() && s !in old(parts) && parts == old(parts) + {s}
      ensures Repr == old(Repr) + (s.Repr + {item})
    {
      assert s !in parts;
      Repr := Repr + (s.Repr + {item});
      parts := parts + {s};
      assert Sturdy();
    }

    /** The same, for the hub as a whole. */
    ghost method Welcome(s: Spoke, item: Item<Spoke>)
      requires Valid() && s.Valid() && forall t <- parts :: t.jobQueue != s.jobQueue
      modifies this`parts, this`Repr
      ensures Valid() && s in parts && Repr == old(Repr) + (s.Repr + {item})
      ensures s != pastSpoke && s != currentSpoke && forall b <- spokeMap :: spokeMap[b] != s
    {
      LinkedMore(spokes.items, spokeMap, pastSpoke, currentSpoke, parts, parts + {s});
      Join(s, item);
    }

    /** Puts the item of a spoke on the heap. */
    method PushSpoke(item: Item<Spoke>)
      requires this in Repr && Sturdy() && item in Repr && Keeper(item) == null && item !in spokes.items
      modifies spokes, spokes.items, item
      ensures this in Repr && Sturdy() && ContainerHeap.OneMore(spokes.items, old(spokes.items), item)
    {
      HeapApart(parts, spokes, spokes.items + [item]);
      ContainerHeap.Push(spokes, item);
      assert Sturdy();
    }

    /** Gives the hub another map, and the view that goes with it. */
    method SetMap(map': map<Bound, Spoke>, ghost w: HubView)
      requires this in Repr && Sturdy()
      requires Linked(spokes.items, map', pastSpoke, currentSpoke, parts) && Shows(w, map', pastSpoke, currentSpoke)
      requires w.span == spokeSpan && w.filter == jobFilter && w.stats == stats.s
      modifies this`spokeMap, this`view
      ensures Valid() && view == w
    {
      spokeMap := map';
      view := w;
      assert Sturdy();
    }

    /** Counts a spoke that enters the hub. */
    method CountSpoke()
      requires Valid()
      modifies stats, this`view
      ensures Valid() && view == old(view).(stats := SpokeAdded(old(view).stats))
    {
      stats.IncrSpoke();
      view := view.(stats := stats.s);
      assert Sturdy();
    }

    /** Adds spoke s to the map, and its item to the heap. */
    method AddSpoke(s: Spoke, item: Item<Spoke>)
      requires Valid() && s in parts && s.bound !in spokeMap
      requires s != pastSpoke && s != currentSpoke && forall b <- spokeMap :: spokeMap[b] != s
      requires item in Repr && Keeper(item) == null && item.value == s && item.priority == s.bound.start
      modifies this`spokeMap, this`view, stats, spokes, spokes.items, item
      ensures Valid()
      ensures view == old(view).(queued := old(view).queued[s.bound := old(s.view)],
                                 stats := SpokeAdded(old(view).stats))
    {
      assert item !in spokes.items;
      PushSpoke(item);
      WithMore(view, old(spokes.items), spokes.items, item, spokeMap, pastSpoke, currentSpoke, parts);
      SetMap(spokeMap[s.bound := s], view.(queued := view.queued[s.bound := s.view]));
      CountSpoke();
    }

    /** Brings a new spoke into the hub, and with it no objects but those in all. */
    method Install(s: Spoke, item: Item<Spoke>, ghost all: set<object>)
      requires s.Repr + {item} <= all
      requires Valid() && s.Valid() && s.bound !in spokeMap && forall t <- parts :: t.jobQueue != s.jobQueue
      requires Keeper(item) == null && item.value == s && item.priority == s.bound.start
      modifies Repr, item
      ensures Valid() && Repr <= old(Repr) + all
      ensures view == old(view).(queued := old(view).queued[s.bound := old(s.view)],
                                 stats := SpokeAdded(old(view).stats))
    {
      Welcome(s, item);
      AddSpoke(s, item);
    }

    /** Makes a spoke for bound b, which shares no queue with those of the hub. */
    method MakeSpoke(j: Job, b: Bound)
      returns (s: Spoke, item: Item<Spoke>, ok: bool, ghost all: set<object>)
      requires Valid()
      ensures s.Valid() && s.Repr + {item} <= all && fresh(all) && forall t <- parts :: t.jobQueue != s.jobQueue
      ensures Keeper(item) == null && item.value == s && item.priority == s.bound.start
      ensures s.bound == b && ok == b.ContainsTime(j.triggerAt)
      ensures s.view == if ok then Insert(EmptySpoke(b), j) else EmptySpoke(b)
    {
      s, item, ok := SpokeFor(j, b);
      all := s.Repr + {item};
    }

    /** Adds j to a new spoke for bound b, unless the bound does not cover it. */
    method AddToNew(j: Job, b: Bound) returns (ok: bool)
      requires Valid() && b !in spokeMap
      modifies Repr
      ensures Valid() && forall x <- Repr :: x in old(Repr) || fresh(x)
      ensures ok == b.ContainsTime(j.triggerAt)
      ensures if ok then
                view == WithNewSpoke(old(view), b, j).(stats := SpokeAdded(old(view).stats))
              else
                view == old(view)
    {
      var s, item;
      ghost var all;
      s, item, ok, all := MakeSpoke(j, b);
      if !ok {
        StillValid();
        return;
      }
      Install(s, item, all);
    }

    /** Adds j to its target, if there is one. */
    method AddToTarget(s: Spoke, j: Job, ghost now: int, ghost o: Owner) returns (ok: bool)
      requires Valid() && o == Target(view, j, now) != Nobody && s == At(spokeMap, pastSpoke, currentSpoke, o)
      modifies Repr
      ensures Valid() && forall x <- Repr :: x in old(Repr) || fresh(x)
      ensures Adds(old(view), j, now, ok, view)
    {
      PlaceTarget(view, j, now);
      ok := AddTo(s, o, j);
      SameSpoke(old(view), o);
    }

    /** Past jobs go to the past spoke; future ones to the current spoke if it covers them, else to the spoke of their
        bucket, which is made if there is none. */
    method AddJob(j: Job, now: int) returns (ok: bool)
      requires Valid()
      modifies Repr
      ensures Valid() && forall x <- Repr :: x in old(Repr) || fresh(x)
      ensures Adds(old(view), j, now, ok, view)
    {
      ghost var o := Target(view, j, now);
      if j.AsTemporalState(now) == Past {
        ok := AddToTarget(pastSpoke, j, now, o);
      } else if currentSpoke != null && currentSpoke.IsJobInBounds(j) {
        ok := AddToTarget(currentSpoke, j, now, o);
      } else {
        ok := AddByBound(j, now, o);
      }
    }

    /** Adds a future job that the current spoke does not cover. */
    method AddByBound(j: Job, ghost now: int, ghost o: Owner) returns (ok: bool)
      requires Valid() && o == Target(view, j, now) && j.AsTemporalState(now) != Past
      requires currentSpoke != null ==> !currentSpoke.bound.ContainsTime(j.triggerAt)
      modifies Repr
      ensures Valid() && forall x <- Repr :: x in old(Repr) || fresh(x)
      ensures Adds(old(view), j, now, ok, view)
    {
      var b := j.AsBound(spokeSpan);
      if b in spokeMap {
        ok := AddToTarget(spokeMap[b], j, now, o);
      } else {
        ok := AddAsNew(j, now, b);
      }
    }

    /** Adds j, which has no target, to a new spoke. */
    method AddAsNew(j: Job, ghost now: int, b: Bound) returns (ok: bool)
      requires Valid() && Target(view, j, now) == Nobody && b == j.AsBound(view.span) && b !in spokeMap
      modifies Repr
      ensures Valid() && forall x <- Repr :: x in old(Repr) || fresh(x)
      ensures Adds(old(view), j, now, ok, view)
    {
      PlaceTarget(view, j, now);
      ok := AddToNew(j, b);
    }

    /** The bookkeeping for a job that has entered the hub. Inserting into the filter is taken to succeed. */
    method AdmitJob(id: string)
      requires Valid()
      modifies this`jobFilter, this`view, stats
      ensures Valid() && view == Admit(sig, old(view), id)
    {
      jobFilter := jobFilter + multiset{sig(id)};
      stats.IncrJob();
      view := Admit(sig, view, id);
      assert Sturdy();
    }

    /** Whether a spoke knows the id, asked only if the filter lets the id through. */
    method AlreadyExists(id: string) returns (known: bool)
      requires Valid()
      ensures known <==> sig(id) in view.filter && Owned(view, id)
    {
      if sig(id) !in jobFilter {
        return false;
      }
      var s;
      ghost var o;
      s, o := FindOwnerSpoke(id);
      OwnerIsOwned(view, id, o);
      known := s != null;
    }

    /** Adds the job, unless its id is known or no spoke covers its trigger. */
    method AddJobLocked(j: Job, now: int) returns (r: AddResult)
      requires Valid()
      modifies Repr
      ensures Valid() && forall x <- Repr :: x in old(Repr) || fresh(x)
      ensures (view, r) == AfterAdd(sig, old(view), j, now)
    {
      var known := AlreadyExists(j.id);
      if known {
        return Duplicate;
      }
      var ok := AddJob(j, now);
      if !ok {
        return OutOfBounds;
      }
      AdmitJob(j.id);
      r := Accepted;
    }

    // ---------- Persistence ----------

    /** Offers every job of the waiting spokes to the persister, slot by slot. */
    method PersistWaiting(p: Persister, ghost lists: seq<seq<Job>>) returns (errors: nat)
      requires Valid() && p !in Repr && p.Valid() && Listed(spokes.items, lists) && WaitingAre(lists)
      modifies p
      ensures Valid() && p.Valid() && p.finalized == old(p.finalized) && |p.refused| == |old(p.refused)| + errors
      ensures p.offered == Plus(old(p.offered), lists, |lists|)
      ensures multiset(p.offered) == multiset(old(p.offered)) + QueuedPending(view.queued)
    {
      PlusAll(p.offered, lists, view.queued, Bounds(spokes.items));
      errors := PersistSpokes(spokes, lists, p);
      StillValid();
    }

    /** These are the jobs of the waiting spokes, slot by slot, as the view shows them. */
    ghost predicate WaitingAre(lists: seq<seq<Job>>)
      reads this`view, spokes`items, set x <- spokes.items :: x.value
    {
      && Lists(view.queued, Bounds(spokes.items)) && |lists| == |spokes.items|
      && forall i :: 0 <= i < |lists| ==> multiset(lists[i]) == view.queued[Bounds(spokes.items)[i]].pending
    }

    /** The jobs of the waiting spokes, slot by slot. */
    lemma WaitingJobs() returns (lists: seq<seq<Job>>)
      requires Valid()
      ensures Listed(spokes.items, lists) && WaitingAre(lists)
    {
      WaitingBounds(view, spokes.items, spokeMap, pastSpoke, currentSpoke, parts);
      lists := ListJobs(spokes.items, view.queued, |spokes.items|);
    }

    /** The jobs of the current spoke, slot by slot. */
    ghost function CurrentJobs(): seq<Job>
      requires Valid()
      reads this, Repr
    {
      if currentSpoke == null then [] else currentSpoke.Jobs()
    }

    /** Offers every job of the hub to the persister: of the waiting spokes, the past one and the current one, in this
        order. Those that cannot be written are counted. The hub keeps its jobs. */
    method PersistLocked(p: Persister) returns (errors: nat, ghost lists: seq<seq<Job>>)
      requires Valid() && p !in Repr && p.Valid()
      modifies p
      ensures Valid() && p.Valid() && p.finalized && |p.refused| == |old(p.refused)| + errors
      ensures |lists| == |spokes.items|
      ensures forall i :: 0 <= i < |lists| ==> HasJobs(spokes.items[i].value, lists[i])
      ensures p.offered == Plus(old(p.offered), lists, |lists|) + pastSpoke.Jobs() + CurrentJobs()
      ensures multiset(p.offered) == multiset(old(p.offered)) + Pending(view)
    {
      lists := WaitingJobs();
      ghost var was, past, current := multiset(p.offered), pastSpoke.Jobs(), CurrentJobs();
      errors := PersistWaiting(p, lists);
      StillJobs(lists);
      ghost var waiting := p.offered;
      assert pastSpoke.Jobs() == past && CurrentJobs() == current;
      var more := PersistPinned(p);
      errors := errors + more;
      StillJobs(lists);
      assert p.offered == waiting + past + current;
      p.Finalize();
      StillJobs(lists);
      AllOffered(view, was, multiset(p.offered));
    }

    /** A hub whose objects have not changed has the jobs it had, slot by slot. */
    twostate lemma StillJobs(lists: seq<seq<Job>>)
      requires old(Valid()) && unchanged(old(Repr))
      ensures Valid() && pastSpoke.Jobs() == old(pastSpoke.Jobs()) && CurrentJobs() == old(CurrentJobs())
      ensures old(Listed(spokes.items, lists)) ==> Listed(spokes.items, lists)
    {
      StillValid();
      StillListed(lists);
    }

    twostate lemma StillListed(lists: seq<seq<Job>>)
      requires old(Valid()) && unchanged(old(Repr)) && Valid()
      ensures old(Listed(spokes.items, lists)) ==> Listed(spokes.items, lists)
    {
      if old(Listed(spokes.items, lists)) {
        forall i | 0 <= i < |lists|
          ensures HasJobs(spokes.items[i].value, lists[i])
        {
          assert spokes.items[i] in spokes.items && spokes.items[i].value in parts;
          assert old(HasJobs(spokes.items[i].value, lists[i]));
        }
      }
    }

    /** Offers every job of the past spoke and of the current one to the persister. */
    method PersistPinned(p: Persister) returns (errors: nat)
      requires Valid() && p !in Repr && p.Valid()
      modifies p
      ensures Valid() && p.Valid() && p.finalized == old(p.finalized) && |p.refused| == |old(p.refused)| + errors
      ensures p.offered == old(p.offered) + pastSpoke.Jobs() + CurrentJobs()
      ensures multiset(p.offered) == multiset(old(p.offered)) + view.past.pending + CurrentPending(view)
    {
      errors := PersistOf(pastSpoke, p);
      StillJobs([]);
      var more := PersistCurrent(p);
      StillJobs([]);
      errors := errors + more;
    }

    /** Offers every job of the current spoke to the persister, if there is one. */
    method PersistCurrent(p: Persister) returns (errors: nat)
      requires Valid() && p !in Repr && p.Valid()
      modifies p
      ensures Valid() && p.Valid() && p.finalized == old(p.finalized) && |p.refused| == |old(p.refused)| + errors
      ensures p.offered == old(p.offered) + CurrentJobs()
      ensures multiset(p.offered) == multiset(old(p.offered)) + CurrentPending(view)
    {
      if currentSpoke == null {
        return 0;
      }
      errors := PersistOf(currentSpoke, p);
    }

    /** Offers every job of spoke s to the persister. */
    method PersistOf(s: Spoke, p: Persister) returns (errors: nat)
      requires Valid() && p !in Repr && p.Valid() && s in parts
      modifies p
      ensures Valid() && p.Valid() && p.finalized == old(p.finalized) && |p.refused| == |old(p.refused)| + errors
      ensures p.offered == old(p.offered) + s.Jobs()
      ensures multiset(p.offered) == multiset(old(p.offered)) + s.view.pending
    {
      s.JobsArePending();
      ghost var js := s.Jobs();
      errors := s.PersistLocked(p);
      assert p.offered == old(p.offered) + js;
      StillValid();
    }

    /** Decodes one record and adds its job. */
    method RestoreRecord(record: Record, now: int, t: Tally) returns (t': Tally)
      requires Valid()
      modifies Repr
      ensures Valid() && forall x <- Repr :: x in old(Repr) || fresh(x)
      ensures (view, t') == RestoreOne(sig, old(view), t, record, now)
    {
      match GobDecode(record)
      case None =>
        t' := t.(errDecode := t.errDecode + 1);
      case Some(j) =>
        var added := AddJobLocked(j, now);
        RestoreAdded(sig, old(view), t, record, now, view, added);
        t' := Count(t, added);
    }

    /** Adds the jobs of the recovered records one by one, and counts what could not be decoded or added. If there is
        nothing to recover from, it fails and leaves the hub alone. */
    method Restore(recovered: Option<seq<Record>>, clock: seq<int>) returns (ok: bool, t: Tally)
      requires Valid() && (recovered.Some? ==> |clock| == |recovered.value|)
      modifies Repr
      ensures Valid() && forall x <- Repr :: x in old(Repr) || fresh(x)
      ensures match recovered
              case None => !ok && t == Tally(0, 0, 0) && view == old(view)
              case Some(records) =>
                && (view, t) == Restored(sig, old(view), records, clock)
                && (ok <==> t.errDecode == 0 && t.errAdd == 0)
                && t.errDecode == |Undecodable(records)| && t.errDecode + t.errAdd + t.recovered == |records|
    {
      t := Tally(0, 0, 0);
      if recovered.None? {
        return false, t;
      }
      var records := recovered.value;
      ghost var v := view;
      t := RestoreAll(records, clock);
      AllCount(sig, v, records, clock);
      ok := t.errAdd == 0 && t.errDecode == 0;
    }

    /** Adds the jobs of the records one by one. */
    method RestoreAll(records: seq<Record>, clock: seq<int>) returns (t: Tally)
      requires Valid() && |clock| == |records|
      modifies Repr
      ensures Valid() && forall x <- Repr :: x in old(Repr) || fresh(x)
      ensures (view, t) == Restored(sig, old(view), records, clock)
    {
      t := Tally(0, 0, 0);
      ghost var v := view;
      for i := 0 to |records|
        invariant Valid() && forall x <- Repr :: x in old(Repr) || fresh(x)
        invariant (view, t) == Restored(sig, v, records[..i], clock[..i])
      {
        RestoredNext(sig, v, records, clock, i);
        t := RestoreRecord(records[i], clock[i], t);
      }
      assert records[..|records|] == records && clock[..|records|] == clock;
    }

    /** Lists n0 jobs or more, if there are as many: those of the past spoke first, then those of the spokes in the
        map, in no particular order. Only the walk through one spoke ends when enough jobs are listed. The number of
        jobs listed is that of the order in which the spokes of the map are met; if it exceeds n0, then CanExceed. */
    method GetNJobs(n0: int) returns (js: seq<Job>, ghost l: Parts)
      requires Valid()
      ensures FairListing(view, n0, js) && IsListing(view, n0, js, l) && |js| == ListingSize(view, l.order, n0)
      ensures n0 >= 1 ==>
                var k := if |view.past.pending| < n0 then |view.past.pending| else n0;
                k <= |js| && multiset(js[..k]) <= view.past.pending
      ensures |js| > n0 >= 1 ==> CanExceed(view, n0)
    {
      js, l := ListAll(n0);
      ListingPromises(view, n0, js, l);
    }

    /** The walk through the past spoke and, if need be, through the others. */
    method ListAll(n0: int) returns (js: seq<Job>, ghost l: Parts)
      requires Valid()
      ensures FairListing(view, n0, js) && IsListing(view, n0, js, l) && |js| == ListingSize(view, l.order, n0)
    {
      pastSpoke.JobsArePending();
      js := Emit(pastSpoke, n0);
      var n := n0 - |js|;
      if n <= 0 {
        ghost var order := SomeOrder(OtherSpokes(view));
        l := Parts(js, order, []);
        ListingOfPast(view, n0, pastSpoke.Jobs(), |js|);
        PartsOfPast(view, n0, pastSpoke.Jobs(), |js|, order);
      } else {
        js, l := ListOthers(n0, js, n);
      }
    }

    /** The listing goes on to the spokes of the map, n more jobs being wanted. */
    method ListOthers(ghost n0: int, past: seq<Job>, n: int) returns (js: seq<Job>, ghost l: Parts)
      requires Valid() && pastSpoke.Valid() && multiset(pastSpoke.Jobs()) == view.past.pending
      requires n == n0 - |past| > 0
      requires |past| == Quota(|pastSpoke.Jobs()|, n0) && past == pastSpoke.Jobs()[..|past|]
      ensures FairListing(view, n0, js) && IsListing(view, n0, js, l) && |js| == ListingSize(view, l.order, n0)
    {
      ShareOf(pastSpoke.Jobs(), view.past, n0, |past|);
      ListingGoesOn(view, n0, pastSpoke.Jobs(), |past|);
      OtherSpokesShown(view, spokes.items, spokeMap, pastSpoke, currentSpoke, parts);
      js, l := WalkMap(view, spokeMap, n0, past, n);
    }
  }
}

/** When a listing has more jobs than were asked for. */
module HubOvershoot {
  import opened Temporal
  import opened Jobs
  import opened SpokeModel
  import opened HubModel
  import opened HubOrder
  import opened HubSweep
  import opened HubInspect

  /** The past spoke is not enough, and without one of the spokes that have jobs there are still enough. */
  ghost predicate CanExceed(v: HubView, n: int) {
    && n > |v.past.pending|
    && exists b <- Busy(OtherSpokes(v)) :: |Pending(v)| - |OtherSpokes(v)[b].pending| >= n
  }

  /** How many jobs the first i spokes of an order hold. */
  ghost function Held(spokes: map<Bound, SpokeView>, order: seq<Bound>, i: nat): nat
    requires i <= |order| && forall b <- order :: b in spokes
  {
    if i == 0 then 0 else Held(spokes, order, i - 1) + |spokes[order[i - 1]].pending|
  }

  lemma {:induction false} HeldRest(spokes: map<Bound, SpokeView>, order: seq<Bound>, i: nat)
    requires Lists(spokes, order) && i <= |order|
    ensures Held(spokes, order, i) + |QueuedPending(Rest(spokes, order, i))| == |QueuedPending(spokes)|
  {
    if i > 0 {
      var k := i - 1;
      HeldRest(spokes, order, k);
      RestAt(spokes, order, k, order[k]);
      QueuedPendingSplit(Rest(spokes, order, k), order[k]);
    }
  }

  lemma HeldAll(spokes: map<Bound, SpokeView>, order: seq<Bound>)
    requires Lists(spokes, order)
    ensures Held(spokes, order, |order|) == |QueuedPending(spokes)|
  {
    HeldRest(spokes, order, |order|);
    forall b
      ensures b !in Rest(spokes, order, |order|)
    {
      RestAt(spokes, order, |order|, b);
    }
    assert Rest(spokes, order, |order|) == map[];
  }

  /** As long as less is listed than wanted, all is listed. */
  lemma {:induction false} WalkedHeld(spokes: map<Bound, SpokeView>, order: seq<Bound>, n: int, i: nat)
    requires i <= |order| && forall b <- order :: b in spokes
    ensures Walked(spokes, order, n, i) <= Held(spokes, order, i)
    ensures Walked(spokes, order, n, i) < n ==> Walked(spokes, order, n, i) == Held(spokes, order, i)
  {
    if i > 0 {
      WalkedHeld(spokes, order, n, i - 1);
    }
  }

  /** A walk that lists more than n jobs meets a spoke with jobs just when n are listed. */
  lemma {:induction false} FirstExcess(spokes: map<Bound, SpokeView>, order: seq<Bound>, n: int, k: nat)
    returns (i: nat)
    requires k <= |order| && (forall b <- order :: b in spokes) && n > 0 && Walked(spokes, order, n, k) > n
    ensures i < k && Walked(spokes, order, n, i) == n && spokes[order[i]].pending != multiset{}
  {
    i := k - 1;
    if Walked(spokes, order, n, i) > n {
      i := FirstExcess(spokes, order, n, i);
    }
  }

  lemma ExcessLeavesEnough(spokes: map<Bound, SpokeView>, order: seq<Bound>, n: int) returns (b: Bound)
    requires Lists(spokes, order) && n > 0 && Walked(spokes, order, n, |order|) > n
    ensures b in Busy(spokes) && |QueuedPending(spokes)| - |spokes[b].pending| >= n
  {
    var i := FirstExcess(spokes, order, n, |order|);
    b := order[i];
    WalkedHeld(spokes, order, n, i);
    HeldRest(spokes, order, i + 1);
  }

  lemma {:induction false} SomeOrder(spokes: map<Bound, SpokeView>) returns (order: seq<Bound>)
    ensures Lists(spokes, order)
    decreases |spokes|
  {
    if spokes == map[] {
      return [];
    }
    var b :| b in spokes;
    assert (spokes - {b}).Keys == spokes.Keys - {b};
    order := SomeOrder(spokes - {b});
    order := order + [b];
  }

  lemma {:induction false} OrderSize(spokes: map<Bound, SpokeView>, order: seq<Bound>)
    requires Lists(spokes, order)
    ensures |order| == |spokes|
    decreases |order|
  {
    if order == [] {
      assert spokes == map[];
    } else {
      var k := |order| - 1;
      assert (spokes - {order[k]}).Keys == spokes.Keys - {order[k]};
      OrderSize(spokes - {order[k]}, order[..k]);
    }
  }

  /** Visiting the spoke last exceeds n. */
  lemma ExcessAtLast(spokes: map<Bound, SpokeView>, b: Bound, n: int) returns (order: seq<Bound>)
    requires b in Busy(spokes) && n > 0 && |QueuedPending(spokes)| - |spokes[b].pending| >= n
    ensures Lists(spokes, order) && Walked(spokes, order, n, |order|) > n
  {
    var first := SomeOrder(spokes - {b});
    order := first + [b];
    HeldAll(spokes, order);
    WalkedHeld(spokes, order, n, |first|);
  }

  lemma PendingSizes(v: HubView)
    requires v.current.Some? ==> v.current.value.bound !in v.queued
    ensures |Pending(v)| == |v.past.pending| + |QueuedPending(OtherSpokes(v))|
  {
    OtherSpokesPending(v);
  }

  /** The map can be visited in an order that lists more than n jobs if and only if the past spoke is not enough and
      some spoke with jobs can be left out with n jobs remaining. */
  lemma ExceedsIff(v: HubView, n: int)
    requires n >= 1 && (v.current.Some? ==> v.current.value.bound !in v.queued)
    ensures CanExceed(v, n) <==> exists order :: Lists(OtherSpokes(v), order) && ListingSize(v, order, n) > n
  {
    PendingSizes(v);
    if CanExceed(v, n) {
      var b :| b in Busy(OtherSpokes(v)) && |Pending(v)| - |OtherSpokes(v)[b].pending| >= n;
      var order := ExcessAtLast(OtherSpokes(v), b, n - |v.past.pending|);
      assert Lists(OtherSpokes(v), order) && ListingSize(v, order, n) > n;
    }
    if order :| Lists(OtherSpokes(v), order) && ListingSize(v, order, n) > n {
      ExceedsOnlyIf(v, order, n);
    }
  }

  lemma ExceedsOnlyIf(v: HubView, order: seq<Bound>, n: int)
    requires n >= 1 && (v.current.Some? ==> v.current.value.bound !in v.queued)
    requires Lists(OtherSpokes(v), order) && ListingSize(v, order, n) > n
    ensures CanExceed(v, n)
  {
    PendingSizes(v);
    var b := ExcessLeavesEnough(OtherSpokes(v), order, n - |v.past.pending|);
  }

  /** What follows for any listing of its parts. */
  lemma ListingPromises(v: HubView, n: int, js: seq<Job>, l: Parts)
    requires (v.current.Some? ==> v.current.value.bound !in v.queued) && IsListing(v, n, js, l)
    requires |js| == ListingSize(v, l.order, n)
    ensures n >= 1 ==>
              var k := if |v.past.pending| < n then |v.past.pending| else n;
              k <= |js| && multiset(js[..k]) <= v.past.pending
    ensures |js| > n >= 1 ==> CanExceed(v, n)
  {
    if n >= 1 {
      PastComesFirst(v, n, js, l);
      if |js| > n {
        ExceedsOnlyIf(v, l.order, n);
      }
    }
  }

  /** Two jobs for one: after two adds to different buckets, a listing of one job has two, whatever the order. */
  lemma TwoForOne(sig: string -> Signature, early: Job, late: Job) returns (ss: seq<HubState>, es: seq<Event>)
    requires early.triggerAt == 15 && late.triggerAt == 25 && early.id != late.id
    ensures RunFromNew(sig, ss, es, 10) && |es| == 2
    ensures CanExceed(ss[2].hub, 1)
    ensures forall order :: Lists(OtherSpokes(ss[2].hub), order) ==> ListingSize(ss[2].hub, order, 1) == 2
  {
    ss, es := TwoAdds(sig, early, late);
    var v2 := TwoWaiting(sig, early, late);
    forall order | Lists(OtherSpokes(v2), order)
      ensures ListingSize(v2, order, 1) == 2
    {
      TwoBuckets(v2, order);
    }
    var order := SomeOrder(OtherSpokes(v2));
    ExceedsOnlyIf(v2, order, 1);
  }

  lemma TwoBuckets(v: HubView, order: seq<Bound>)
    requires v.past.pending == multiset{} && OtherSpokes(v).Keys == {BUCKET10, BUCKET20}
    requires |OtherSpokes(v)[BUCKET10].pending| == |OtherSpokes(v)[BUCKET20].pending| == 1
    requires Lists(OtherSpokes(v), order)
    ensures ListingSize(v, order, 1) == 2
  {
    OrderSize(OtherSpokes(v), order);
    assert |OtherSpokes(v)| == |{BUCKET10, BUCKET20}| == 2;
    assert order[0] in order && order[1] in order;
    assert Walked(OtherSpokes(v), order, 1, 1) == 1;
  }
}

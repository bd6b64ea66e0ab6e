/** The best-effort listing of jobs, as values. */
module HubInspect {
  import opened Temporal
  import opened Jobs
  import opened SpokeModel
  import opened HubModel
  import opened HubSweep

  /** All spokes but the past one, by their bounds. */
  function OtherSpokes(v: HubView): map<Bound, SpokeView> {
    if v.current.Some? then v.queued[v.current.value.bound := v.current.value] else v.queued
  }

  lemma OtherSpokesPending(v: HubView)
    requires v.current.Some? ==> v.current.value.bound !in v.queued
    ensures QueuedPending(OtherSpokes(v)) == LaterPending(v)
  {
    if v.current.Some? {
      QueuedPendingUpdate(v.queued, v.current.value.bound, v.current.value);
      assert v.queued - {v.current.value.bound} == v.queued;
    }
  }

  /** How many jobs a spoke of len jobs emits while n are wanted: at least one, if it has any. */
  function Quota(len: nat, n: int): nat {
    if n < 1 then if len < 1 then len else 1
    else if len < n then len else n
  }

  /** How many jobs the first i spokes of an order list, n being wanted at the start. */
  ghost function Walked(spokes: map<Bound, SpokeView>, order: seq<Bound>, n: int, i: nat): nat
    requires i <= |order| && forall b <- order :: b in spokes
  {
    if i == 0 then 0
    else
      var w := Walked(spokes, order, n, i - 1);
      w + Quota(|spokes[order[i - 1]].pending|, n - w)
  }

  /** How many jobs a listing of n jobs has if it visits the spokes of the map in this order. */
  ghost function ListingSize(v: HubView, order: seq<Bound>, n: int): nat
    requires Lists(OtherSpokes(v), order)
  {
    var q := Quota(|v.past.pending|, n);
    if n - q <= 0 then q else q + Walked(OtherSpokes(v), order, n - q, |order|)
  }

  lemma {:induction false} WalkedPrefix(spokes: map<Bound, SpokeView>, order: seq<Bound>, b: Bound, n: int, i: nat)
    requires i <= |order| && (forall c <- order :: c in spokes) && b in spokes
    ensures Walked(spokes, order + [b], n, i) == Walked(spokes, order, n, i)
  {
    if i > 0 {
      WalkedPrefix(spokes, order, b, n, i - 1);
    }
  }

  /** Exactly these spokes have been visited, in this order, and js have been listed, n0 having been wanted. */
  ghost predicate Visited(v: HubView, bounds: set<Bound>, order: seq<Bound>, n0: int, js: seq<Job>) {
    && (forall b <- order :: b in OtherSpokes(v) && b !in bounds)
    && (forall b <- OtherSpokes(v) :: b in bounds || b in order)
    && (forall m, n :: 0 <= m < n < |order| ==> order[m] != order[n])
    && |js| == |v.past.pending| + Walked(OtherSpokes(v), order, n0 - |v.past.pending|, |order|)
  }

  lemma VisitNext(v: HubView, bounds: set<Bound>, order: seq<Bound>, n0: int, js: seq<Job>, b: Bound, more: seq<Job>)
    requires Visited(v, bounds, order, n0, js) && b in bounds && b in OtherSpokes(v)
    requires |more| == Quota(|OtherSpokes(v)[b].pending|, n0 - |js|)
    ensures Visited(v, bounds - {b}, order + [b], n0, js + more)
  {
    WalkedPrefix(OtherSpokes(v), order, b, n0 - |v.past.pending|, |order|);
  }

  /** What a spoke contributes while n jobs are wanted: jobs of its own, all of them or as many as are wanted, and at
      least one if it has any. */
  ghost predicate IsShare(share: seq<Job>, s: SpokeView, n: int) {
    && multiset(share) <= s.pending
    && |share| == if |s.pending| <= n then |s.pending| else if n >= 1 then n else if |s.pending| >= 1 then 1 else 0
  }

  lemma ShareOf(ks: seq<Job>, s: SpokeView, n: int, q: nat)
    requires multiset(ks) == s.pending && q == Quota(|ks|, n)
    ensures q <= |ks| && IsShare(ks[..q], s, n)
  {
    assert ks == ks[..q] + ks[q..];
    assert multiset(ks) == multiset(ks[..q]) + multiset(ks[q..]);
    assert |multiset(ks)| == |ks|;
  }

  /** The k-th share is that of the k-th spoke of the order, after what the spokes before it have listed. */
  ghost predicate ShareAt(spokes: map<Bound, SpokeView>, order: seq<Bound>, shares: seq<seq<Job>>, n: int, k: nat)
    requires k < |order| == |shares| && forall b <- order :: b in spokes
  {
    IsShare(shares[k], spokes[order[k]], n - Walked(spokes, order, n, k))
  }

  /** js are first, and then the shares of the spokes of this order, n jobs being wanted at the start of the order. */
  ghost predicate Shared(spokes: map<Bound, SpokeView>, order: seq<Bound>, shares: seq<seq<Job>>, first: seq<Job>,
                         n: int, js: seq<Job>)
    requires forall b <- order :: b in spokes
  {
    && |shares| == |order| && js == Plus(first, shares, |shares|)
    && forall k :: 0 <= k < |order| ==> ShareAt(spokes, order, shares, n, k)
  }

  lemma {:induction false} PlusMore(first: seq<Job>, shares: seq<seq<Job>>, share: seq<Job>, k: nat)
    requires k <= |shares|
    ensures Plus(first, shares + [share], k) == Plus(first, shares, k)
  {
    if k > 0 {
      PlusMore(first, shares, share, k - 1);
    }
  }

  lemma {:induction false} PlusStarts(first: seq<Job>, shares: seq<seq<Job>>, k: nat)
    requires k <= |shares|
    ensures |first| <= |Plus(first, shares, k)| && Plus(first, shares, k)[..|first|] == first
  {
    if k > 0 {
      PlusStarts(first, shares, k - 1);
    }
  }

  lemma ShareStays(spokes: map<Bound, SpokeView>, order: seq<Bound>, shares: seq<seq<Job>>, n: int, b: Bound,
                   share: seq<Job>, k: nat)
    requires (forall c <- order :: c in spokes) && b in spokes && k < |order| == |shares|
    requires ShareAt(spokes, order, shares, n, k)
    ensures ShareAt(spokes, order + [b], shares + [share], n, k)
  {
    WalkedPrefix(spokes, order, b, n, k);
  }

  lemma ShareNew(spokes: map<Bound, SpokeView>, order: seq<Bound>, shares: seq<seq<Job>>, n: int, b: Bound,
                 share: seq<Job>)
    requires (forall c <- order :: c in spokes) && b in spokes && |shares| == |order|
    requires IsShare(share, spokes[b], n - Walked(spokes, order, n, |order|))
    ensures ShareAt(spokes, order + [b], shares + [share], n, |order|)
  {
    WalkedPrefix(spokes, order, b, n, |order|);
  }

  lemma ShareNext(spokes: map<Bound, SpokeView>, order: seq<Bound>, shares: seq<seq<Job>>, first: seq<Job>, n: int,
                  js: seq<Job>, b: Bound, share: seq<Job>, m: int)
    requires (forall c <- order :: c in spokes) && b in spokes && Shared(spokes, order, shares, first, n, js)
    requires m == n - Walked(spokes, order, n, |order|) && IsShare(share, spokes[b], m)
    ensures Shared(spokes, order + [b], shares + [share], first, n, js + share)
  {
    PlusMore(first, shares, share, |shares|);
    forall k | 0 <= k < |order + [b]|
      ensures ShareAt(spokes, order + [b], shares + [share], n, k)
    {
      if k < |order| {
        ShareStays(spokes, order, shares, n, b, share, k);
      } else {
        ShareNew(spokes, order, shares, n, b, share);
      }
    }
  }

  /** What a listing is made of: jobs of the past spoke, and the shares of the other spokes in this order. */
  datatype Parts = Parts(first: seq<Job>, order: seq<Bound>, shares: seq<seq<Job>>)

  /** js are a listing of n jobs, made of these parts: as many jobs of the past spoke as there are, but no more than n
      or, for want of n, one; and if these are not enough, the shares of all other spokes in some order. */
  ghost predicate IsListing(v: HubView, n: int, js: seq<Job>, l: Parts) {
    && IsShare(l.first, v.past, n) && Lists(OtherSpokes(v), l.order)
    && if n <= |l.first| then
         l.shares == [] && js == l.first
       else
         Shared(OtherSpokes(v), l.order, l.shares, l.first, n - |l.first|, js)
  }

  /** So a listing starts with jobs of the past spoke, as many as are wanted or there are. */
  lemma PastComesFirst(v: HubView, n: int, js: seq<Job>, l: Parts)
    requires IsListing(v, n, js, l) && n >= 1
    ensures var k := if |v.past.pending| < n then |v.past.pending| else n;
            k <= |js| && multiset(js[..k]) <= v.past.pending
  {
    if n > |l.first| {
      PlusStarts(l.first, l.shares, |l.shares|);
    } else {
      assert js[..|l.first|] == js;
    }
  }

  /** The spokes that have jobs. */
  function Busy(spokes: map<Bound, SpokeView>): set<Bound> {
    set b <- spokes | spokes[b].pending != multiset{}
  }

  /** The state of a listing: js are listed and hidden passed over, n are still wanted of n0, the spokes in rest are
      still to come, and busy had jobs. Nothing is passed over before enough is listed, and from then on every
      spoke that has jobs adds one. */
  ghost predicate Inspecting(total: multiset<Job>, rest: map<Bound, SpokeView>, n0: int, js: seq<Job>, n: int,
                             hidden: multiset<Job>, busy: set<Bound>) {
    && n + |js| == n0
    && multiset(js) + hidden + QueuedPending(rest) == total
    && (n > 0 ==> hidden == multiset{})
    && (n <= 0 ==> -n < |busy|)
  }

  lemma InspectNext(total: multiset<Job>, rest: map<Bound, SpokeView>, n0: int, js: seq<Job>, n: int,
                    hidden: multiset<Job>, busy: set<Bound>, b: Bound, ks: seq<Job>, q: nat)
    requires Inspecting(total, rest, n0, js, n, hidden, busy)
    requires b in rest && b !in busy && multiset(ks) == rest[b].pending && q == Quota(|ks|, n)
    ensures Inspecting(total, rest - {b}, n0, js + ks[..q], n - q, hidden + multiset(ks[q..]),
                       if ks == [] then busy else busy + {b})
  {
    QueuedPendingSplit(rest, b);
    InspectSum(js, hidden, ks, q, QueuedPending(rest - {b}), total);
    if q == |ks| {
      assert ks[q..] == [];
    }
  }

  /** The books of a walk through the map. */
  datatype Books = Books(rest: map<Bound, SpokeView>, hidden: multiset<Job>, busy: set<Bound>, order: seq<Bound>)

  /** The spokes of these bounds are still to come in a walk through the other spokes of v. */
  ghost predicate Walking(v: HubView, bounds: set<Bound>, n0: int, js: seq<Job>, n: int, a: Books) {
    && a.rest.Keys == bounds && (forall b <- a.rest :: b in OtherSpokes(v) && OtherSpokes(v)[b] == a.rest[b])
    && a.busy <= Busy(OtherSpokes(v)) && (forall b <- bounds :: b !in a.busy)
    && (forall b <- Busy(OtherSpokes(v)) :: b in bounds || b in a.busy)
    && |js| >= |v.past.pending| + |a.busy|
    && Visited(v, bounds, a.order, n0, js)
    && Inspecting(Pending(v), a.rest, n0, js, n, a.hidden, a.busy)
  }

  lemma WalkNext(v: HubView, bounds: set<Bound>, n0: int, js: seq<Job>, n: int, a: Books, b: Bound, ks: seq<Job>,
                 q: nat)
    returns (a': Books)
    requires Walking(v, bounds, n0, js, n, a) && b in bounds
    requires b in OtherSpokes(v) && multiset(ks) == OtherSpokes(v)[b].pending && q == Quota(|ks|, n)
    ensures Walking(v, bounds - {b}, n0, js + ks[..q], n - q, a') && a'.order == a.order + [b]
  {
    a' := Books(a.rest - {b}, a.hidden + multiset(ks[q..]), if ks == [] then a.busy else a.busy + {b},
                a.order + [b]);
    assert |multiset(ks)| == |ks|;
    VisitNext(v, bounds, a.order, n0, js, b, ks[..q]);
    InspectNext(Pending(v), a.rest, n0, js, n, a.hidden, a.busy, b, ks, q);
    assert (a.rest - {b}).Keys == bounds - {b};
    if ks != [] {
      assert ks[0] in multiset(ks);
    }
  }

  lemma WantedLeft(v: HubView, bounds: set<Bound>, n0: int, js: seq<Job>, n: int, a: Books)
    requires Walking(v, bounds, n0, js, n, a)
    ensures (forall b <- a.order :: b in OtherSpokes(v))
    ensures n == n0 - |v.past.pending| - Walked(OtherSpokes(v), a.order, n0 - |v.past.pending|, |a.order|)
  {
  }

  /** One spoke more, with its share. */
  lemma ShareOfNext(spokes: map<Bound, SpokeView>, order: seq<Bound>, shares: seq<seq<Job>>, first: seq<Job>, n: int,
                    js: seq<Job>, b: Bound, ks: seq<Job>, m: int, q: nat)
    requires (forall c <- order :: c in spokes) && b in spokes && Shared(spokes, order, shares, first, n, js)
    requires m == n - Walked(spokes, order, n, |order|) && multiset(ks) == spokes[b].pending && q == Quota(|ks|, m)
    ensures q <= |ks| && Shared(spokes, order + [b], shares + [ks[..q]], first, n, js + ks[..q])
  {
    ShareOf(ks, spokes[b], m, q);
    ShareNext(spokes, order, shares, first, n, js, b, ks[..q], m);
  }

  lemma ShareOfWalk(v: HubView, bounds: set<Bound>, n0: int, first: seq<Job>, js: seq<Job>, n: int, a: Books,
                    shares: seq<seq<Job>>, b: Bound, ks: seq<Job>, q: nat)
    requires Walking(v, bounds, n0, js, n, a) && b in OtherSpokes(v)
    requires Shared(OtherSpokes(v), a.order, shares, first, n0 - |v.past.pending|, js)
    requires multiset(ks) == OtherSpokes(v)[b].pending && q == Quota(|ks|, n)
    ensures q <= |ks|
    ensures Shared(OtherSpokes(v), a.order + [b], shares + [ks[..q]], first, n0 - |v.past.pending|, js + ks[..q])
  {
    WantedLeft(v, bounds, n0, js, n, a);
    ShareOfNext(OtherSpokes(v), a.order, shares, first, n0 - |v.past.pending|, js, b, ks, n, q);
  }

  lemma InspectSum(js: seq<Job>, hidden: multiset<Job>, ks: seq<Job>, q: nat, rest: multiset<Job>, total: multiset<Job>)
    requires q <= |ks| && multiset(js) + hidden + (multiset(ks) + rest) == total
    ensures multiset(js + ks[..q]) + (hidden + multiset(ks[q..])) + rest == total
  {
    assert ks == ks[..q] + ks[q..];
    assert multiset(ks) == multiset(ks[..q]) + multiset(ks[q..]);
    assert multiset(js + ks[..q]) == multiset(js) + multiset(ks[..q]);
  }

  /** What a listing of n jobs promises. It lists live jobs only, each at most as often as it is queued. It lists all
      if that many are wanted. Otherwise it lists enough, and too many by at most one for each further spoke with
      jobs; unless the past spoke alone is enough, for then the number is exact. If the past spoke is not enough,
      then every spoke with jobs adds at least one. */
  ghost predicate FairListing(v: HubView, n: int, js: seq<Job>) {
    && multiset(js) <= Pending(v)
    && (n >= |Pending(v)| ==> multiset(js) == Pending(v))
    && (1 <= n < |Pending(v)| ==>
          n <= |js| <= n + if n <= |v.past.pending| then 0 else |Busy(OtherSpokes(v))| - 1)
    && (n < 1 ==> |js| == Quota(|v.past.pending|, n))
    && (n > |v.past.pending| ==> |js| >= |v.past.pending| + |Busy(OtherSpokes(v))|)
  }

  /** A listing that ends with the past spoke. */
  lemma ListingOfPast(v: HubView, n: int, ks: seq<Job>, q: nat)
    requires multiset(ks) == v.past.pending && q == Quota(|ks|, n) && n - q <= 0
    ensures FairListing(v, n, ks[..q])
  {
    assert ks == ks[..q] + ks[q..];
    assert multiset(ks) == multiset(ks[..q]) + multiset(ks[q..]);
    assert |multiset(ks)| == |ks|;
    if n >= |Pending(v)| {
      assert ks[..q] == ks;
      assert |LaterPending(v)| == 0;
    }
  }

  /** Its parts. */
  lemma PartsOfPast(v: HubView, n: int, ks: seq<Job>, q: nat, order: seq<Bound>)
    requires multiset(ks) == v.past.pending && q == Quota(|ks|, n) && n - q <= 0 && Lists(OtherSpokes(v), order)
    ensures IsListing(v, n, ks[..q], Parts(ks[..q], order, [])) && q == ListingSize(v, order, n)
  {
    assert |multiset(ks)| == |ks|;
    ShareOf(ks, v.past, n, q);
  }

  /** A listing that goes on to the other spokes. */
  lemma ListingGoesOn(v: HubView, n0: int, ks: seq<Job>, q: nat)
    requires multiset(ks) == v.past.pending && q == Quota(|ks|, n0) && n0 - q > 0
    requires v.current.Some? ==> v.current.value.bound !in v.queued
    ensures n0 > |v.past.pending|
    ensures Walking(v, OtherSpokes(v).Keys, n0, ks[..q], n0 - q, Books(OtherSpokes(v), multiset{}, {}, []))
  {
    assert ks[..q] == ks;
    assert |multiset(ks)| == |ks|;
    OtherSpokesPending(v);
  }

  /** A listing that went on to the other spokes. */
  lemma ListingOfAll(v: HubView, n0: int, js: seq<Job>, n: int, a: Books)
    requires n0 > |v.past.pending| && Walking(v, {}, n0, js, n, a)
    ensures FairListing(v, n0, js)
  {
    assert a.rest == map[];
    assert multiset(js) + a.hidden == Pending(v);
    assert |multiset(js)| == |js|;
    assert a.busy == Busy(OtherSpokes(v));
    if n0 >= |Pending(v)| {
      assert |a.hidden| == |Pending(v)| - |js|;
    }
  }

  /** Its size is that of the order of the visits. */
  lemma SizeOfAll(v: HubView, n0: int, js: seq<Job>, order: seq<Bound>)
    requires n0 > |v.past.pending| && Visited(v, {}, order, n0, js)
    ensures Lists(OtherSpokes(v), order) && |js| == ListingSize(v, order, n0)
  {
  }

  lemma PartsOfAll(v: HubView, n: int, first: seq<Job>, order: seq<Bound>, shares: seq<seq<Job>>, js: seq<Job>)
    requires IsShare(first, v.past, n) && n > |v.past.pending| && Lists(OtherSpokes(v), order)
    requires Shared(OtherSpokes(v), order, shares, first, n - |v.past.pending|, js)
    ensures IsListing(v, n, js, Parts(first, order, shares))
  {
    assert |first| == |v.past.pending|;
  }

  /** What is known of a listing when all spokes have been visited. */
  lemma WalkDone(v: HubView, n0: int, first: seq<Job>, js: seq<Job>, n: int, a: Books, shares: seq<seq<Job>>)
    requires IsShare(first, v.past, n0) && n0 > |v.past.pending| && Walking(v, {}, n0, js, n, a)
    requires Shared(OtherSpokes(v), a.order, shares, first, n0 - |v.past.pending|, js)
    ensures FairListing(v, n0, js) && IsListing(v, n0, js, Parts(first, a.order, shares))
    ensures |js| == ListingSize(v, a.order, n0)
  {
    ListingOfAll(v, n0, js, n, a);
    SizeOfAll(v, n0, js, a.order);
    PartsOfAll(v, n0, first, a.order, shares, js);
  }
}

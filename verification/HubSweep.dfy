/** Going through the waiting spokes one by one, as PersistLocked does. */
module HubSweep {
  import opened Temporal
  import opened Jobs
  import opened SpokeModel
  import opened HubModel

  /** What there was, and the first n lists, end to end. */
  ghost function Plus(was: seq<Job>, lists: seq<seq<Job>>, n: nat): seq<Job>
    requires n <= |lists|
  {
    if n == 0 then was else Plus(was, lists, n - 1) + lists[n - 1]
  }

  /** The bounds name every waiting spoke, each once. */
  ghost predicate Lists(queued: map<Bound, SpokeView>, bounds: seq<Bound>) {
    && (forall b <- bounds :: b in queued)
    && (forall b <- queued :: b in bounds)
    && (forall m, n :: 0 <= m < n < |bounds| ==> bounds[m] != bounds[n])
  }

  /** The spokes without those of the first n bounds. */
  function Rest(queued: map<Bound, SpokeView>, bounds: seq<Bound>, n: nat): map<Bound, SpokeView>
    requires n <= |bounds|
  {
    if n == 0 then queued else Rest(queued, bounds, n - 1) - {bounds[n - 1]}
  }

  lemma {:induction false} RestAt(queued: map<Bound, SpokeView>, bounds: seq<Bound>, n: nat, b: Bound)
    requires n <= |bounds|
    ensures b in Rest(queued, bounds, n) <==> b in queued && b !in bounds[..n]
    ensures b in Rest(queued, bounds, n) ==> Rest(queued, bounds, n)[b] == queued[b]
  {
    if n > 0 {
      RestAt(queued, bounds, n - 1, b);
      assert bounds[..n] == bounds[..n - 1] + [bounds[n - 1]];
    }
  }

  lemma {:induction false} PlusRest(was: seq<Job>, lists: seq<seq<Job>>, queued: map<Bound, SpokeView>,
                                    bounds: seq<Bound>, n: nat)
    requires Lists(queued, bounds) && n <= |bounds| == |lists|
    requires forall i :: 0 <= i < |bounds| ==> multiset(lists[i]) == queued[bounds[i]].pending
    ensures multiset(Plus(was, lists, n)) + QueuedPending(Rest(queued, bounds, n))
            == multiset(was) + QueuedPending(queued)
  {
    if n > 0 {
      PlusRest(was, lists, queued, bounds, n - 1);
      RestAt(queued, bounds, n - 1, bounds[n - 1]);
      PlusStep(Rest(queued, bounds, n - 1), bounds[n - 1], Plus(was, lists, n - 1), lists[n - 1]);
    }
  }

  lemma PlusStep(rest: map<Bound, SpokeView>, b: Bound, done: seq<Job>, next: seq<Job>)
    requires b in rest && multiset(next) == rest[b].pending
    ensures multiset(done + next) + QueuedPending(rest - {b}) == multiset(done) + QueuedPending(rest)
  {
    QueuedPendingSplit(rest, b);
    assert multiset(done + next) == multiset(done) + multiset(next);
    Regroup(multiset(done), multiset(next), QueuedPending(rest - {b}));
  }

  /** Going through all of them meets every waiting job, as often as it is queued. */
  lemma PlusAll(was: seq<Job>, lists: seq<seq<Job>>, queued: map<Bound, SpokeView>, bounds: seq<Bound>)
    requires Lists(queued, bounds) && |bounds| == |lists|
    requires forall i :: 0 <= i < |bounds| ==> multiset(lists[i]) == queued[bounds[i]].pending
    ensures multiset(Plus(was, lists, |lists|)) == multiset(was) + QueuedPending(queued)
  {
    PlusRest(was, lists, queued, bounds, |bounds|);
    forall b
      ensures b !in Rest(queued, bounds, |bounds|)
    {
      RestAt(queued, bounds, |bounds|, b);
    }
    assert Rest(queued, bounds, |bounds|) == map[];
  }
}

/** What every operation keeps, whatever the filter says. */
module HubInvariants {
  import opened Options
  import opened Temporal
  import opened Jobs
  import opened SpokeModel
  import opened Stats
  import opened HubModel

  /** A spoke of this hub covers a whole bucket and holds only jobs of that bucket. */
  ghost predicate SpokeFits(s: SpokeView, span: int) {
    Aligned(s.bound, span) && WellFormed(s)
  }

  /** Spokes are keyed by their own bounds, and no two share one. */
  ghost predicate Shaped(v: HubView) {
    && WellFormed(v.past)
    && (v.current.Some? ==> SpokeFits(v.current.value, v.span) && v.current.value.bound !in v.queued)
    && forall b <- v.queued :: v.queued[b].bound == b && SpokeFits(v.queued[b], v.span)
  }

  function SpokeCount(v: HubView): nat {
    |v.queued| + if v.current.Some? then 1 else 0
  }

  /** The counters tell the truth. */
  ghost predicate Counted(v: HubView) {
    v.stats.currentJobs == |Pending(v)| && v.stats.currentSpokes == SpokeCount(v)
  }

  /** The jobs an operation brings in. */
  function Gain(e: Event): multiset<Job> {
    if e.AddEvent? && e.added == Accepted then multiset{e.job} else multiset{}
  }

  /** The jobs an operation hands out. */
  function Loss(e: Event): multiset<Job> {
    if !e.AddEvent? && e.result.Some? then multiset{e.result.value} else multiset{}
  }

  // ---------- One spoke changes ----------

  lemma WithSpokePending(v: HubView, o: Owner, s: SpokeView)
    requires HasSpoke(v, o)
    ensures SpokeAt(v, o).pending <= Pending(v)
    ensures Pending(WithSpoke(v, o, s)) == Pending(v) - SpokeAt(v, o).pending + s.pending
  {
    match o
    case QueuedSpoke(b) =>
      QueuedPendingSplit(v.queued, b);
      QueuedPendingUpdate(v.queued, b, s);
    case _ =>
  }

  lemma WithSpokeShaped(v: HubView, o: Owner, s: SpokeView)
    requires Shaped(v) && HasSpoke(v, o)
    requires s.bound == SpokeAt(v, o).bound && WellFormed(s)
    ensures Shaped(WithSpoke(v, o, s)) && SpokeCount(WithSpoke(v, o, s)) == SpokeCount(v)
  {
    if o.QueuedSpoke? {
      assert WithSpoke(v, o, s).queued.Keys == v.queued.Keys;
    }
  }

  lemma SpokeAtFits(v: HubView, o: Owner)
    requires Shaped(v) && HasSpoke(v, o)
    ensures WellFormed(SpokeAt(v, o))
    ensures !o.PastSpoke? ==> SpokeFits(SpokeAt(v, o), v.span)
  {
  }

  lemma TakeAt(v: HubView, o: Owner, j: Job)
    requires Shaped(v) && HasSpoke(v, o) && j in SpokeAt(v, o).pending
    ensures var w := WithSpoke(v, o, Take(SpokeAt(v, o), j));
            Shaped(w) && Pending(v) == Pending(w) + multiset{j} && SpokeCount(w) == SpokeCount(v)
  {
    SpokeAtFits(v, o);
    TakeKeepsWellFormed(SpokeAt(v, o), j);
    WithSpokeShaped(v, o, Take(SpokeAt(v, o), j));
    WithSpokePending(v, o, Take(SpokeAt(v, o), j));
  }

  lemma InsertAt(v: HubView, o: Owner, j: Job)
    requires Shaped(v) && HasSpoke(v, o) && SpokeAt(v, o).bound.ContainsTime(j.triggerAt)
    ensures var w := WithSpoke(v, o, Insert(SpokeAt(v, o), j));
            Shaped(w) && Pending(w) == Pending(v) + multiset{j} && SpokeCount(w) == SpokeCount(v)
  {
    SpokeAtFits(v, o);
    InsertKeepsWellFormed(SpokeAt(v, o), j);
    WithSpokeShaped(v, o, Insert(SpokeAt(v, o), j));
    WithSpokePending(v, o, Insert(SpokeAt(v, o), j));
  }

  /** v with a new spoke for j in its heap. */
  function WithNewSpoke(v: HubView, b: Bound, j: Job): HubView {
    v.(queued := v.queued[b := Insert(EmptySpoke(b), j)])
  }

  lemma QueuedPendingNew(queued: map<Bound, SpokeView>, b: Bound, j: Job)
    requires b !in queued
    ensures QueuedPending(queued[b := Insert(EmptySpoke(b), j)]) == QueuedPending(queued) + multiset{j}
    ensures |queued[b := Insert(EmptySpoke(b), j)]| == |queued| + 1
  {
    QueuedPendingUpdate(queued, b, Insert(EmptySpoke(b), j));
    assert queued - {b} == queued;
    assert queued[b := Insert(EmptySpoke(b), j)].Keys == queued.Keys + {b};
  }

  lemma NewSpokePending(v: HubView, b: Bound, j: Job)
    requires b !in v.queued
    ensures Pending(WithNewSpoke(v, b, j)) == Pending(v) + multiset{j}
    ensures SpokeCount(WithNewSpoke(v, b, j)) == SpokeCount(v) + 1
  {
    QueuedPendingNew(v.queued, b, j);
  }

  lemma NewSpokeShaped(v: HubView, b: Bound, j: Job)
    requires Shaped(v) && Aligned(b, v.span) && b.ContainsTime(j.triggerAt)
    requires v.current.Some? ==> v.current.value.bound != b
    ensures Shaped(WithNewSpoke(v, b, j))
  {
    InsertKeepsWellFormed(EmptySpoke(b), j);
  }

  // ---------- The operations ----------

  /** Which spoke the job goes to; Nobody stands for a new one. */
  function Target(v: HubView, j: Job, now: int): Owner {
    var b := j.AsBound(v.span);
    if j.AsTemporalState(now) == Past then PastSpoke
    else if v.current.Some? && v.current.value.bound.ContainsTime(j.triggerAt) then CurrentSpoke
    else if v.current.Some? && b !in v.queued && v.current.value.bound == b then CurrentSpoke
    else if b in v.queued then QueuedSpoke(b)
    else Nobody
  }

  /** A new job is accepted exactly when its trigger lies ahead and the span is positive, or its trigger lies
      behind and within the past spoke. */
  lemma PlaceAccepts(v: HubView, j: Job, now: int)
    requires Shaped(v)
    ensures Place(v, j, now).Some? <==>
            if j.triggerAt <= now then v.past.bound.ContainsTime(j.triggerAt) else v.span > 0
  {
    BoundOfContains(j.triggerAt, v.span);
  }

  /** The short way through the current spoke leads where the lookup of the bound leads. */
  lemma FastPathIsSlowPath(v: HubView, j: Job, now: int)
    requires Shaped(v) && now < j.triggerAt
    ensures Place(v, j, now) == PlaceByBound(v, j, j.AsBound(v.span))
  {
    if v.current.Some? {
      AlignedUnique(v.current.value.bound, j.triggerAt, v.span);
    }
  }

  /** Placing a job is adding it to its target, if that covers the trigger. */
  lemma PlaceTarget(v: HubView, j: Job, now: int)
    ensures var o := Target(v, j, now);
            if o == Nobody then
              Place(v, j, now) == if j.AsBound(v.span).ContainsTime(j.triggerAt) then
                                    Some(WithNewSpoke(v, j.AsBound(v.span), j).(stats := SpokeAdded(v.stats)))
                                  else None
            else
              && HasSpoke(v, o)
              && Place(v, j, now) == if SpokeAt(v, o).bound.ContainsTime(j.triggerAt) then
                                       Some(WithSpoke(v, o, Insert(SpokeAt(v, o), j)))
                                     else None
  {
  }

  /** w is v with j queued, before the bookkeeping. */
  ghost predicate Placed(v: HubView, w: HubView, j: Job) {
    && Shaped(w) && w.filter == v.filter && Pending(w) == Pending(v) + multiset{j}
    && w.stats.currentSpokes - v.stats.currentSpokes == SpokeCount(w) - SpokeCount(v)
    && w.stats.currentJobs == v.stats.currentJobs && w.stats.removedJobs == v.stats.removedJobs
    && w.span == v.span && w.past.bound == v.past.bound
  }

  lemma PlaceKeeps(v: HubView, j: Job, now: int)
    requires Shaped(v) && Place(v, j, now).Some?
    ensures Placed(v, Place(v, j, now).value, j)
  {
    PlaceTarget(v, j, now);
    BoundOfContains(j.triggerAt, v.span);
    if Target(v, j, now) == Nobody {
      NewSpokePending(v, j.AsBound(v.span), j);
      NewSpokeShaped(v, j.AsBound(v.span), j);
    } else {
      InsertAt(v, Target(v, j, now), j);
    }
  }

  lemma PromoteKeeps(v: HubView, b: Bound)
    requires Shaped(v) && v.current.None? && b in v.queued
    ensures Shaped(Promote(v, b)) && Pending(Promote(v, b)) == Pending(v) && SpokeCount(Promote(v, b)) == SpokeCount(v)
  {
    QueuedPendingSplit(v.queued, b);
    assert (v.queued - {b}).Keys == v.queued.Keys - {b};
  }

  lemma ExpireKeeps(v: HubView, now: int)
    requires Shaped(v) && Counted(v)
    ensures Shaped(Expire(v, now)) && Counted(Expire(v, now)) && Pending(Expire(v, now)) == Pending(v)
  {
  }

  /** v' is a truthful hub with the jobs of v, apart from what came in and what was handed out. */
  ghost predicate Moves(v: HubView, v': HubView, gain: multiset<Job>, loss: multiset<Job>) {
    && Shaped(v') && Counted(v')
    && Pending(v') + loss == Pending(v) + gain
    && v'.stats.removedJobs == v.stats.removedJobs + |loss|
    && v'.span == v.span && v'.past.bound == v.past.bound
  }

  lemma SettleAt(sig: string -> Signature, v: HubView, o: Owner, j: Job)
    requires Shaped(v) && Counted(v) && HasSpoke(v, o) && j in SpokeAt(v, o).pending
    ensures Moves(v, Settle(sig, WithSpoke(v, o, Take(SpokeAt(v, o), j)), j.id), multiset{}, multiset{j})
  {
    TakeAt(v, o, j);
  }

  /** Every operation keeps the shape of the hub and the truth of its counters, and changes the queued jobs by
      exactly what it takes in or hands out. This does not depend on the filter. */
  lemma StepKeeps(sig: string -> Signature, v: HubView, e: Event, v': HubView)
    requires Shaped(v) && Counted(v) && HubStep(sig, v, e, v')
    ensures Moves(v, v', Gain(e), Loss(e))
  {
    match e
    case AddEvent(j, now, added) =>
      AddKeeps(sig, v, j, now, v', added);
    case CancelEvent(id, r) =>
      CancelKeeps(sig, v, id, v', r);
    case NextEvent(pastNow, expiryNow, readyNow, r) =>
      NextKeeps(sig, v, pastNow, expiryNow, readyNow, v', r);
  }

  lemma NextKeeps(sig: string -> Signature, v: HubView, pastNow: int, expiryNow: int, readyNow: int,
                  v': HubView, r: Option<Job>)
    requires Shaped(v) && Counted(v) && NextStep(sig, v, pastNow, expiryNow, readyNow, v', r)
    ensures Moves(v, v', multiset{}, if r.Some? then multiset{r.value} else multiset{})
  {
    if Ready(v.past, pastNow) {
      SettleAt(sig, v, PastSpoke, r.value);
    } else {
      ExpireKeeps(v, expiryNow);
      FromCurrentKeeps(sig, Expire(v, expiryNow), readyNow, v', r);
    }
  }

  lemma AdmitKeeps(sig: string -> Signature, v: HubView, w: HubView, j: Job)
    requires Counted(v) && Placed(v, w, j)
    ensures Moves(v, Admit(sig, w, j.id), multiset{j}, multiset{})
  {
  }

  lemma AddKeeps(sig: string -> Signature, v: HubView, j: Job, now: int, v': HubView, added: AddResult)
    requires Shaped(v) && Counted(v) && (v', added) == AfterAdd(sig, v, j, now)
    ensures Moves(v, v', if added == Accepted then multiset{j} else multiset{}, multiset{})
  {
    if added == Accepted {
      var w := Place(v, j, now).value;
      PlaceKeeps(v, j, now);
      AdmitKeeps(sig, v, w, j);
    }
  }

  lemma CancelKeeps(sig: string -> Signature, v: HubView, id: string, v': HubView, r: Option<Job>)
    requires Shaped(v) && Counted(v) && CancelStep(sig, v, id, v', r)
    ensures Moves(v, v', multiset{}, if r.Some? then multiset{r.value} else multiset{})
  {
    if r.Some? {
      var o :| IsOwner(v, id, o) && CancelAt(sig, v, id, o, v', r);
      SpokeAtFits(v, o);
      SettleAt(sig, v, o, r.value);
    }
  }

  lemma FromCurrentKeeps(sig: string -> Signature, v: HubView, now: int, v': HubView, r: Option<Job>)
    requires Shaped(v) && Counted(v) && NextFromCurrent(sig, v, now, v', r)
    ensures Moves(v, v', multiset{}, if r.Some? then multiset{r.value} else multiset{})
  {
    if v.current.None? && v.queued != map[] {
      var b :| Earliest(v.queued, b) && Serve(sig, Promote(v, b), CurrentSpoke, now, v', r);
      PromoteKeeps(v, b);
      ServeKeeps(sig, Promote(v, b), now, v', r);
    } else if v.current.Some? {
      ServeKeeps(sig, v, now, v', r);
    }
  }

  lemma ServeKeeps(sig: string -> Signature, v: HubView, now: int, v': HubView, r: Option<Job>)
    requires Shaped(v) && Counted(v) && v.current.Some? && Serve(sig, v, CurrentSpoke, now, v', r)
    ensures Moves(v, v', multiset{}, if r.Some? then multiset{r.value} else multiset{})
  {
    if r.Some? {
      SettleAt(sig, v, CurrentSpoke, r.value);
    }
  }
}

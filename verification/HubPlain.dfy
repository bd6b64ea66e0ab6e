/** What the operations do, said of the fields alone and in plain numbers. */
module HubPlain {
  import opened Options
  import opened Temporal
  import opened Jobs
  import opened SpokeModel
  import opened HubModel
  import opened HubInvariants
  import opened HubRuns
  import opened HubFlat
  import opened HubRefinement

  // ---------- Next ----------

  /** The current spoke stays: it has jobs, or the clock is not past its end. */
  predicate StaysCurrent(v: HubView, expiryNow: int) {
    v.current.Some? && (v.current.value.pending != multiset{} || expiryNow <= v.current.value.bound.end)
  }

  /** r is a job of s with the least trigger, if that is reached; and there is one if any trigger of s is reached. */
  ghost predicate FirstDue(s: SpokeView, now: int, r: Option<Job>) {
    && (r.Some? <==> exists j <- s.pending :: j.triggerAt <= now)
    && (r.Some? ==> r.value in s.pending && forall j <- s.pending :: r.value.triggerAt <= j.triggerAt)
  }

  /** s' is s without the job r, if there is one. */
  ghost predicate Less(s: SpokeView, r: Option<Job>, s': SpokeView) {
    && s'.bound == s.bound
    && s'.pending == (if r.Some? then s.pending - multiset{r.value} else s.pending)
    && s'.index == (if r.Some? then s.index - {r.value.id} else s.index)
  }

  /** Where Next looks, and what it finds there: in the past spoke at the first reading of the clock; if nothing is due
      there, in the current spoke at the third reading, if it stays by the second one; and otherwise in a waiting spoke
      of earliest start, which becomes the current one. */
  lemma NextFromPast(sig: string -> Signature, v: HubView, e: Event, v': HubView)
    requires e.NextEvent? && HubStep(sig, v, e, v') && exists j <- v.past.pending :: j.triggerAt <= e.pastNow
    ensures FirstDue(v.past, e.pastNow, e.result) && Less(v.past, e.result, v'.past)
    ensures v'.current == v.current && v'.queued == v.queued
  {
  }

  lemma ServeCurrent(sig: string -> Signature, v: HubView, now: int, v': HubView, r: Option<Job>)
    requires v.current.Some? && Serve(sig, v, CurrentSpoke, now, v', r)
    ensures FirstDue(v.current.value, now, r)
    ensures v'.current.Some? && Less(v.current.value, r, v'.current.value)
    ensures v'.past == v.past && v'.queued == v.queued
  {
  }

  lemma NextFromKept(sig: string -> Signature, v: HubView, e: Event, v': HubView)
    requires e.NextEvent? && HubStep(sig, v, e, v') && forall j <- v.past.pending :: e.pastNow < j.triggerAt
    requires StaysCurrent(v, e.expiryNow)
    ensures FirstDue(v.current.value, e.readyNow, e.result)
    ensures v'.current.Some? && Less(v.current.value, e.result, v'.current.value)
    ensures v'.past == v.past && v'.queued == v.queued
  {
    ServeCurrent(sig, v, e.readyNow, v', e.result);
  }

  lemma PinAndServe(sig: string -> Signature, v: HubView, now: int, v': HubView, r: Option<Job>) returns (b: Bound)
    requires v.current.None? && v.queued != map[] && NextFromCurrent(sig, v, now, v', r)
    ensures b in v.queued && forall c <- v.queued :: b.start <= c.start
    ensures FirstDue(v.queued[b], now, r) && v'.current.Some? && Less(v.queued[b], r, v'.current.value)
    ensures v'.past == v.past && v'.queued == v.queued - {b}
  {
    b := WhichPinned(sig, v, now, v', r);
    ServeCurrent(sig, Promote(v, b), now, v', r);
  }

  lemma NextFromWaiting(sig: string -> Signature, v: HubView, e: Event, v': HubView) returns (b: Bound)
    requires e.NextEvent? && HubStep(sig, v, e, v') && forall j <- v.past.pending :: e.pastNow < j.triggerAt
    requires !StaysCurrent(v, e.expiryNow) && v.queued != map[]
    ensures b in v.queued && forall c <- v.queued :: b.start <= c.start
    ensures FirstDue(v.queued[b], e.readyNow, e.result)
    ensures v'.current.Some? && Less(v.queued[b], e.result, v'.current.value)
    ensures v'.past == v.past && v'.queued == v.queued - {b}
  {
    var w := Expire(v, e.expiryNow);
    assert w.current.None? && w.queued == v.queued && w.past == v.past;
    b := PinAndServe(sig, w, e.readyNow, v', e.result);
  }

  lemma NextFromNothing(sig: string -> Signature, v: HubView, e: Event, v': HubView)
    requires e.NextEvent? && HubStep(sig, v, e, v') && forall j <- v.past.pending :: e.pastNow < j.triggerAt
    requires !StaysCurrent(v, e.expiryNow) && v.queued == map[]
    ensures e.result.None? && v'.current == None && v'.past == v.past && v'.queued == v.queued
  {
  }

  /** Exactly when the current spoke survives a call of Next: the past spoke has a due job, or the spoke has jobs, or
      the clock is not past its end. */
  lemma KeptIff(sig: string -> Signature, v: HubView, e: Event, v': HubView)
    requires Shaped(v) && e.NextEvent? && HubStep(sig, v, e, v') && v.current.Some?
    ensures v'.current.Some? && v'.current.value.bound == v.current.value.bound <==>
            || (exists j <- v.past.pending :: j.triggerAt <= e.pastNow)
            || v.current.value.pending != multiset{} || e.expiryNow <= v.current.value.bound.end
  {
    if exists j <- v.past.pending :: j.triggerAt <= e.pastNow {
      NextFromPast(sig, v, e, v');
    } else if StaysCurrent(v, e.expiryNow) {
      NextFromKept(sig, v, e, v');
    } else if v.queued == map[] {
      NextFromNothing(sig, v, e, v');
    } else {
      var b := NextFromWaiting(sig, v, e, v');
      assert v.queued[b].bound == b;
    }
  }

  // ---------- Add ----------

  /** The bucket of the instant t, for a positive span. */
  function Bucket(t: int, span: int): Bound
    requires span > 0
  {
    Bound(t - t % span, t - t % span + span)
  }

  /** s' is s with the job j, which is found under its id. */
  ghost predicate More(s: SpokeView, j: Job, s': SpokeView) {
    s'.bound == s.bound && s'.pending == s.pending + multiset{j} && s'.index == s.index[j.id := j]
  }

  /** An accepted job whose trigger is reached is queued in the past spoke. */
  lemma AddToPast(sig: string -> Signature, v: HubView, j: Job, now: int, v': HubView)
    requires j.triggerAt <= now && (v', Accepted) == AfterAdd(sig, v, j, now)
    ensures More(v.past, j, v'.past) && v'.current == v.current && v'.queued == v.queued
  {
  }

  /** queued' is queued with one more job in the spoke of bound b, which is made if there is none. */
  ghost predicate MoreAt(queued: map<Bound, SpokeView>, b: Bound, j: Job, queued': map<Bound, SpokeView>) {
    && queued'.Keys == queued.Keys + {b} && queued' - {b} == queued - {b}
    && More(if b in queued then queued[b] else SpokeView(b, multiset{}, map[]), j, queued'[b])
  }

  lemma QueueMore(queued: map<Bound, SpokeView>, b: Bound, j: Job, s: SpokeView)
    requires More(if b in queued then queued[b] else SpokeView(b, multiset{}, map[]), j, s)
    ensures MoreAt(queued, b, j, queued[b := s])
  {
    assert queued[b := s].Keys == queued.Keys + {b};
    assert queued[b := s] - {b} == queued - {b};
  }

  lemma PlaceInBucket(v: HubView, j: Job, b: Bound, w: HubView)
    requires PlaceByBound(v, j, b) == Some(w) && (v.current.Some? ==> v.current.value.bound !in v.queued)
    ensures w.past == v.past
    ensures if v.current.Some? && v.current.value.bound == b then
              w.current.Some? && More(v.current.value, j, w.current.value) && w.queued == v.queued
            else
              w.current == v.current && MoreAt(v.queued, b, j, w.queued)
  {
    if b in v.queued {
      QueueMore(v.queued, b, j, Insert(v.queued[b], j));
    } else if v.current.None? || v.current.value.bound != b {
      QueueMore(v.queued, b, j, Insert(EmptySpoke(b), j));
    }
  }

  /** Any other accepted job is queued in the spoke of its bucket, the current one or a waiting one. */
  lemma AddToBucket(sig: string -> Signature, v: HubView, j: Job, now: int, v': HubView)
    requires Shaped(v) && now < j.triggerAt && (v', Accepted) == AfterAdd(sig, v, j, now)
    ensures v.span > 0 && v'.past == v.past
    ensures var b := Bucket(j.triggerAt, v.span);
            if v.current.Some? && v.current.value.bound == b then
              v'.current.Some? && More(v.current.value, j, v'.current.value) && v'.queued == v.queued
            else
              v'.current == v.current && MoreAt(v.queued, b, j, v'.queued)
  {
    PlaceAccepts(v, j, now);
    FastPathIsSlowPath(v, j, now);
    var w := Place(v, j, now).value;
    assert BoundOf(j.triggerAt, v.span) == Bucket(j.triggerAt, v.span);
    PlaceInBucket(v, j, Bucket(j.triggerAt, v.span), w);
  }

  /** An add that is not accepted changes nothing; otherwise the filter has one more entry for the id. */
  lemma AddCounts(sig: string -> Signature, v: HubView, j: Job, now: int, v': HubView, added: AddResult)
    requires (v', added) == AfterAdd(sig, v, j, now)
    ensures added != Accepted ==> v' == v
    ensures added == Accepted ==> v'.filter == v.filter + multiset{sig(j.id)}
    ensures added == Duplicate <==> sig(j.id) in v.filter && Owned(v, j.id)
  {
  }

  /** The past spoke reaches a hundred years back and ahead from when the hub was made, a year being 365 days: in every
      run from a new hub, as long as the filter has no false negatives, a new job is accepted late if it is due within
      these hundred years, and ahead of time if the span is positive. */
  lemma AcceptedWithinCenturies(sig: string -> Signature, ss: seq<HubState>, es: seq<Event>, span: int, i: nat,
                                j: Job, now: int)
    requires RunFromNew(sig, ss, es, span) && i <= |es| && NoneUncovers(sig, ss, es, i) && j.id !in Flat(ss[i].hub)
    ensures AfterAdd(sig, ss[i].hub, j, now).1 == Accepted <==>
            if j.triggerAt <= now then
              -3_153_600_000_000_000_000 <= j.triggerAt - ss[0].clock < 3_153_600_000_000_000_000
            else
              span > 0
  {
    RunIsFlat(sig, ss, es, span, i);
    ReachableShape(sig, ss, es, span, i);
    AcceptedIff(sig, ss[i].hub, j, now);
  }

  // ---------- Cancel ----------

  /** A cancel that does not pass the filter does nothing. One that does takes one entry of the id out of it. */
  lemma CancelFilters(sig: string -> Signature, v: HubView, id: string, v': HubView, r: Option<Job>)
    requires CancelStep(sig, v, id, v', r)
    ensures sig(id) !in v.filter ==> v' == v && r == None
    ensures sig(id) in v.filter ==> v'.filter == v.filter - multiset{sig(id)} && (r.Some? <==> Owned(v, id))
  {
    if sig(id) in v.filter {
      var o :| IsOwner(v, id, o) && CancelAt(sig, v, id, o, v', r);
    }
  }

  /** Even where several spokes know the id, the past spoke comes first, then the current one, and then any other. */
  lemma CancelPrefers(sig: string -> Signature, v: HubView, id: string, v': HubView, r: Option<Job>)
    requires CancelStep(sig, v, id, v', r) && sig(id) in v.filter
    ensures if id in v.past.index then
              && r == Some(v.past.index[id]) && Less(v.past, r, v'.past)
              && v'.current == v.current && v'.queued == v.queued
            else if v.current.Some? && id in v.current.value.index then
              && r == Some(v.current.value.index[id]) && v'.current.Some? && Less(v.current.value, r, v'.current.value)
              && v'.past == v.past && v'.queued == v.queued
            else if r.Some? then
              exists b :: CancelledAt(v, b, id, r, v')
            else
              v'.past == v.past && v'.current == v.current && v'.queued == v.queued
  {
    var o :| IsOwner(v, id, o) && CancelAt(sig, v, id, o, v', r);
    if o.QueuedSpoke? {
      CancelWaiting(sig, v, id, o.bound, v', r);
    }
  }

  lemma CancelWaiting(sig: string -> Signature, v: HubView, id: string, b: Bound, v': HubView, r: Option<Job>)
    requires IsOwner(v, id, QueuedSpoke(b)) && CancelAt(sig, v, id, QueuedSpoke(b), v', r)
    ensures CancelledAt(v, b, id, r, v')
  {
    var s := Take(v.queued[b], v.queued[b].index[id]);
    assert v.queued[b := s] - {b} == v.queued - {b};
  }

  /** r was waiting in the spoke of bound b, and is gone from there alone. */
  ghost predicate CancelledAt(v: HubView, b: Bound, id: string, r: Option<Job>, v': HubView) {
    && b in v.queued && id in v.queued[b].index && r == Some(v.queued[b].index[id])
    && b in v'.queued && Less(v.queued[b], r, v'.queued[b]) && v'.queued - {b} == v.queued - {b}
    && v'.past == v.past && v'.current == v.current
  }
}

/** In which order jobs come out. */
module HubOrder {
  import opened Options
  import opened Temporal
  import opened Jobs
  import opened SpokeModel
  import opened Stats
  import opened HubModel
  import opened HubInvariants
  import opened HubRuns

  /** When the past spoke has nothing to give, Next looks into spoke s. */
  ghost predicate Serves(v: HubView, expiryNow: int, s: SpokeView) {
    var w := Expire(v, expiryNow);
    if w.current.Some? then s == w.current.value else Earliest(w.queued, s.bound) && s == w.queued[s.bound]
  }

  /** j is due no later than any job outside the past spoke. */
  ghost predicate LeastLater(v: HubView, j: Job) {
    forall k <- LaterPending(v) :: j.triggerAt <= k.triggerAt
  }

  /** No waiting spoke that has jobs starts before bound b. */
  ghost predicate NoneEarlier(queued: map<Bound, SpokeView>, b: Bound) {
    forall c <- queued :: queued[c].pending != multiset{} ==> b.start <= c.start
  }

  lemma LaterMember(v: HubView, k: Job)
    ensures k in LaterPending(v) <==> k in CurrentPending(v) || exists b <- v.queued :: k in v.queued[b].pending
  {
    QueuedPendingMember(v.queued, k);
  }

  /** Where a job comes from that Next returns while the past spoke has nothing to give. */
  lemma ServedFrom(sig: string -> Signature, v: HubView, pastNow: int, expiryNow: int, readyNow: int,
                   v': HubView, r: Option<Job>) returns (s: SpokeView)
    requires Shaped(v) && NextStep(sig, v, pastNow, expiryNow, readyNow, v', r)
    requires !Ready(v.past, pastNow) && r.Some?
    ensures Serves(v, expiryNow, s) && Head(s, r.value) && SpokeFits(s, v.span)
  {
    var w := Expire(v, expiryNow);
    if w.current.Some? {
      s := w.current.value;
    } else {
      var b :| Earliest(w.queued, b) && Serve(sig, Promote(w, b), CurrentSpoke, readyNow, v', r);
      s := w.queued[b];
    }
  }

  lemma ServedIsUnique(v: HubView, expiryNow: int, s: SpokeView, t: SpokeView)
    requires Shaped(v) && Serves(v, expiryNow, s) && Serves(v, expiryNow, t)
    ensures s == t
  {
    var w := Expire(v, expiryNow);
    if w.current.None? {
      AlignedApart(s.bound, t.bound, v.span);
    }
  }

  /** Exactly when Next respects the order of triggers: a job it returns while the past spoke has nothing to give is
      a least job outside the past spoke if and only if no waiting spoke with jobs starts before the spoke served. */
  lemma OrderIff(sig: string -> Signature, v: HubView, pastNow: int, expiryNow: int, readyNow: int,
                 v': HubView, r: Option<Job>, s: SpokeView)
    requires Shaped(v) && NextStep(sig, v, pastNow, expiryNow, readyNow, v', r)
    requires !Ready(v.past, pastNow) && r.Some? && Serves(v, expiryNow, s)
    ensures LeastLater(v, r.value) <==> NoneEarlier(v.queued, s.bound)
  {
    var t := ServedFrom(sig, v, pastNow, expiryNow, readyNow, v', r);
    ServedIsUnique(v, expiryNow, s, t);
    LeastIffNoneEarlier(v, expiryNow, s, r.value);
  }

  lemma LeastIffNoneEarlier(v: HubView, expiryNow: int, s: SpokeView, j: Job)
    requires Shaped(v) && Serves(v, expiryNow, s) && SpokeFits(s, v.span) && Head(s, j)
    ensures LeastLater(v, j) <==> NoneEarlier(v.queued, s.bound)
  {
    if NoneEarlier(v.queued, s.bound) {
      forall k <- LaterPending(v)
        ensures j.triggerAt <= k.triggerAt
      {
        LeastIf(v, expiryNow, s, j, k);
      }
    }
    if LeastLater(v, j) {
      forall b <- v.queued | v.queued[b].pending != multiset{}
        ensures s.bound.start <= b.start
      {
        LeastOnlyIf(v, s, j, b);
      }
    }
  }

  lemma LeastIf(v: HubView, expiryNow: int, s: SpokeView, j: Job, k: Job)
    requires Shaped(v) && Serves(v, expiryNow, s) && SpokeFits(s, v.span) && Head(s, j)
    requires NoneEarlier(v.queued, s.bound) && k in LaterPending(v)
    ensures j.triggerAt <= k.triggerAt
  {
    LaterMember(v, k);
    if k !in s.pending {
      var b :| b in v.queued && k in v.queued[b].pending;
      AlignedApart(s.bound, b, v.span);
    }
  }

  lemma LeastOnlyIf(v: HubView, s: SpokeView, j: Job, b: Bound)
    requires Shaped(v) && SpokeFits(s, v.span) && Head(s, j) && LeastLater(v, j)
    requires b in v.queued && v.queued[b].pending != multiset{}
    ensures s.bound.start <= b.start
  {
    var k :| k in v.queued[b].pending;
    LaterMember(v, k);
    AlignedApart(s.bound, b, v.span);
  }

  // ---------- Runs ----------

  /** The current spoke ends before every waiting spoke starts. */
  ghost predicate CurrentFirst(v: HubView) {
    v.current.Some? ==> forall b <- v.queued :: v.current.value.bound.end <= b.start
  }

  /** A job is accepted that is due before the current spoke starts, and not yet. */
  ghost predicate Undercuts(v: HubView, e: Event) {
    && e.AddEvent? && e.added == Accepted && v.current.Some?
    && e.now < e.job.triggerAt < v.current.value.bound.start
  }

  lemma PlacedCurrentFirst(v: HubView, j: Job, now: int)
    requires Shaped(v) && Place(v, j, now).Some?
    ensures CurrentFirst(Place(v, j, now).value) <==> CurrentFirst(v) && !Undercuts(v, AddEvent(j, now, Accepted))
  {
    PlaceTarget(v, j, now);
    BoundOfContains(j.triggerAt, v.span);
    if Target(v, j, now) == Nobody && v.current.Some? {
      AlignedUnique(v.current.value.bound, j.triggerAt, v.span);
      AlignedApart(v.current.value.bound, j.AsBound(v.span), v.span);
    }
  }

  /** w has spokes of the same bounds in the same places as v. */
  ghost predicate SameBounds(v: HubView, w: HubView) {
    && w.queued.Keys == v.queued.Keys
    && (w.current.Some? <==> v.current.Some?)
    && (v.current.Some? ==> w.current.value.bound == v.current.value.bound)
  }

  lemma WithSpokeBounds(v: HubView, o: Owner, s: SpokeView)
    requires HasSpoke(v, o) && s.bound == SpokeAt(v, o).bound
    ensures SameBounds(v, WithSpoke(v, o, s))
  {
    if o.QueuedSpoke? {
      assert v.queued[o.bound := s].Keys == v.queued.Keys;
    }
  }

  lemma CancelKeepsBounds(sig: string -> Signature, v: HubView, id: string, v': HubView, r: Option<Job>)
    requires CancelStep(sig, v, id, v', r)
    ensures SameBounds(v, v')
  {
    if sig(id) in v.filter {
      var o :| IsOwner(v, id, o) && CancelAt(sig, v, id, o, v', r);
      if o != Nobody {
        WithSpokeBounds(v, o, Take(SpokeAt(v, o), r.value));
      }
    }
  }

  /** Next looks for a new current spoke. */
  ghost predicate Pins(v: HubView, e: Event) {
    e.NextEvent? && !Ready(v.past, e.pastNow) && Expire(v, e.expiryNow).current.None?
  }

  lemma SameLead(v: HubView, w: HubView)
    requires SameBounds(v, w)
    ensures CurrentFirst(v) <==> CurrentFirst(w)
  {
  }

  /** Serving a job leaves the bounds alone. */
  lemma ServeSameBounds(sig: string -> Signature, v: HubView, o: Owner, now: int, v': HubView, r: Option<Job>)
    requires HasSpoke(v, o) && Serve(sig, v, o, now, v', r)
    ensures SameBounds(v, v')
  {
    if r.Some? {
      WithSpokeBounds(v, o, Take(SpokeAt(v, o), r.value));
    }
  }

  /** An earliest waiting spoke is ahead of the others when it has been pinned. */
  lemma PromoteLeads(v: HubView, b: Bound)
    requires Shaped(v) && v.current.None? && Earliest(v.queued, b)
    ensures CurrentFirst(Promote(v, b))
  {
    forall c | c in v.queued && c != b
      ensures b.end <= c.start
    {
      AlignedApart(b, c, v.span);
    }
  }

  lemma PinnedLeads(sig: string -> Signature, v: HubView, now: int, v': HubView, r: Option<Job>)
    requires Shaped(v) && v.current.None? && NextFromCurrent(sig, v, now, v', r)
    ensures CurrentFirst(v')
  {
    if v.queued != map[] {
      var b := WhichPinned(sig, v, now, v', r);
      PromoteLeads(v, b);
      ServeSameBounds(sig, Promote(v, b), CurrentSpoke, now, v', r);
      SameLead(Promote(v, b), v');
    }
  }

  lemma NextCurrentFirst(sig: string -> Signature, v: HubView, e: Event, v': HubView)
    requires Shaped(v) && e.NextEvent? && HubStep(sig, v, e, v')
    ensures CurrentFirst(v') <==> CurrentFirst(v) || Pins(v, e)
  {
    if Ready(v.past, e.pastNow) {
      ServeSameBounds(sig, v, PastSpoke, e.pastNow, v', e.result);
      SameLead(v, v');
    } else if Pins(v, e) {
      PinnedLeads(sig, Expire(v, e.expiryNow), e.readyNow, v', e.result);
    } else {
      ServeSameBounds(sig, v, CurrentSpoke, e.readyNow, v', e.result);
      SameLead(v, v');
    }
  }

  /** Exactly when the current spoke is ahead of the waiting ones after a step, whatever was before: Next has just
      looked for a new one, or it was ahead before and no add undercuts it. */
  lemma CurrentFirstIff(sig: string -> Signature, s: HubState, e: Event, s': HubState)
    requires Shaped(s.hub) && Step(sig, s, e, s')
    ensures CurrentFirst(s'.hub) <==> Pins(s.hub, e) || (CurrentFirst(s.hub) && !Undercuts(s.hub, e))
  {
    match e
    case AddEvent(j, now, added) =>
      if added == Accepted {
        PlacedCurrentFirst(s.hub, j, now);
      }
    case CancelEvent(id, r) =>
      CancelKeepsBounds(sig, s.hub, id, s'.hub, r);
    case NextEvent(_, _, _, _) =>
      NextCurrentFirst(sig, s.hub, e, s'.hub);
  }

  /** No add undercuts from step n on and before step i. */
  ghost predicate NoneUndercuts(ss: seq<HubState>, es: seq<Event>, n: nat, i: nat)
    requires i <= |es| <= |ss|
  {
    forall k :: n <= k < i ==> !Undercuts(ss[k].hub, es[k])
  }

  lemma CurrentFirstNext(sig: string -> Signature, ss: seq<HubState>, es: seq<Event>, span: int, i: nat)
    requires RunFromNew(sig, ss, es, span) && i < |es| && CurrentFirst(ss[i].hub)
    ensures CurrentFirst(ss[i + 1].hub) <==> !Undercuts(ss[i].hub, es[i])
  {
    ReachableShape(sig, ss, es, span, i);
    StepAt(sig, ss, es, i);
    CurrentFirstIff(sig, ss[i], es[i], ss[i + 1]);
  }

  /** Once the current spoke is ahead, as it is at first and whenever it has been pinned, it stays so along a run until
      an add undercuts it. */
  lemma ReachableCurrentFirst(sig: string -> Signature, ss: seq<HubState>, es: seq<Event>, span: int, n: nat, i: nat)
    requires RunFromNew(sig, ss, es, span) && n <= i <= |es| && CurrentFirst(ss[n].hub) && NoneUndercuts(ss, es, n, i)
    ensures CurrentFirst(ss[i].hub)
  {
    forall k | n <= k < i
      ensures LeadGoesOn(ss, k)
    {
      if CurrentFirst(ss[k].hub) {
        CurrentFirstNext(sig, ss, es, span, k);
      }
    }
    LeadCarries(ss, n, i);
  }

  ghost predicate LeadGoesOn(ss: seq<HubState>, k: nat)
    requires k + 1 < |ss|
  {
    CurrentFirst(ss[k].hub) ==> CurrentFirst(ss[k + 1].hub)
  }

  lemma {:induction false} LeadCarries(ss: seq<HubState>, n: nat, i: nat)
    requires n <= i < |ss| && CurrentFirst(ss[n].hub) && forall k :: n <= k < i ==> LeadGoesOn(ss, k)
    ensures CurrentFirst(ss[i].hub)
  {
    if n < i {
      var k := i - 1;
      LeadCarries(ss, n, k);
      assert LeadGoesOn(ss, k);
    }
  }

  /** The first such add ends that. */
  lemma LeadEndsIff(sig: string -> Signature, ss: seq<HubState>, es: seq<Event>, span: int, n: nat, i: nat)
    requires RunFromNew(sig, ss, es, span) && n <= i < |es| && CurrentFirst(ss[n].hub) && NoneUndercuts(ss, es, n, i)
    ensures CurrentFirst(ss[i + 1].hub) <==> !Undercuts(ss[i].hub, es[i])
  {
    ReachableCurrentFirst(sig, ss, es, span, n, i);
    CurrentFirstNext(sig, ss, es, span, i);
  }

  // ---------- When the current spoke has started ----------

  /** The current spoke has started. */
  ghost predicate Started(s: HubState) {
    s.hub.current.Some? ==> s.hub.current.value.bound.start <= s.clock
  }

  /** Next has to pin a spoke, and none of those waiting has started. */
  ghost predicate PinsEarly(v: HubView, e: Event) {
    Pins(v, e) && v.queued != map[] && forall b <- v.queued :: e.readyNow < b.start
  }

  /** Exactly then the current spoke has not started afterwards. */
  lemma StartedIff(sig: string -> Signature, s: HubState, e: Event, s': HubState)
    requires Shaped(s.hub) && Started(s) && Step(sig, s, e, s')
    ensures Started(s') <==> !PinsEarly(s.hub, e)
  {
    match e
    case AddEvent(j, now, added) =>
      if added == Accepted {
        PlaceTarget(s.hub, j, now);
      }
    case CancelEvent(id, r) =>
      CancelKeepsBounds(sig, s.hub, id, s'.hub, r);
    case NextEvent(pastNow, expiryNow, readyNow, r) =>
      if !Ready(s.hub.past, pastNow) {
        NextStarts(sig, s.hub, e, s'.hub);
      }
  }

  lemma NextStarts(sig: string -> Signature, v: HubView, e: Event, v': HubView)
    requires Shaped(v) && e.NextEvent? && !Ready(v.past, e.pastNow)
    requires v.current.Some? ==> v.current.value.bound.start <= e.readyNow
    requires NextFromCurrent(sig, Expire(v, e.expiryNow), e.readyNow, v', e.result)
    ensures v'.current.Some? && v'.current.value.bound.start > e.readyNow <==> PinsEarly(v, e)
  {
    var w := Expire(v, e.expiryNow);
    if w.current.Some? {
      ServeSameBounds(sig, w, CurrentSpoke, e.readyNow, v', e.result);
    } else if w.queued != map[] {
      var b := WhichPinned(sig, w, e.readyNow, v', e.result);
      ServeSameBounds(sig, Promote(w, b), CurrentSpoke, e.readyNow, v', e.result);
      EarliestStartsIff(w.queued, b, e.readyNow);
    }
  }

  lemma EarliestStartsIff(queued: map<Bound, SpokeView>, b: Bound, now: int)
    requires Earliest(queued, b)
    ensures now < b.start <==> forall c <- queued :: now < c.start
  {
  }

  /** The current spoke has started all along. */
  ghost predicate PromotesStarted(ss: seq<HubState>) {
    forall i :: 0 <= i < |ss| ==> Started(ss[i])
  }

  lemma StartedNext(sig: string -> Signature, ss: seq<HubState>, es: seq<Event>, span: int, i: nat)
    requires RunFromNew(sig, ss, es, span) && i < |es| && Started(ss[i])
    ensures Started(ss[i + 1]) <==> !PinsEarly(ss[i].hub, es[i])
  {
    ReachableShape(sig, ss, es, span, i);
    StepAt(sig, ss, es, i);
    StartedIff(sig, ss[i], es[i], ss[i + 1]);
  }

  lemma {:induction false} ReachableStarted(sig: string -> Signature, ss: seq<HubState>, es: seq<Event>, span: int,
                                            i: nat)
    requires RunFromNew(sig, ss, es, span) && i <= |es|
    requires forall k :: 0 <= k < i ==> !PinsEarly(ss[k].hub, es[k])
    ensures Started(ss[i])
  {
    if i > 0 {
      var k := i - 1;
      ReachableStarted(sig, ss, es, span, k);
      assert !PinsEarly(ss[k].hub, es[k]);
      StartedNext(sig, ss, es, span, k);
    }
  }

  /** In a run from a new hub the current spoke has started all along if and only if no call of Next pins early. */
  lemma PromotesStartedIff(sig: string -> Signature, ss: seq<HubState>, es: seq<Event>, span: int)
    requires RunFromNew(sig, ss, es, span)
    ensures PromotesStarted(ss) <==> forall k :: 0 <= k < |es| ==> !PinsEarly(ss[k].hub, es[k])
  {
    if PromotesStarted(ss) {
      forall k | 0 <= k < |es|
        ensures !PinsEarly(ss[k].hub, es[k])
      {
        assert Started(ss[k]) && Started(ss[k + 1]);
        StartedNext(sig, ss, es, span, k);
      }
    }
    if forall k :: 0 <= k < |es| ==> !PinsEarly(ss[k].hub, es[k]) {
      forall i | 0 <= i < |ss|
        ensures Started(ss[i])
      {
        ReachableStarted(sig, ss, es, span, i);
      }
    }
  }

  /** A current spoke that has started cannot be undercut. */
  lemma StartedNeverUndercut(sig: string -> Signature, ss: seq<HubState>, es: seq<Event>, i: nat)
    requires Run(sig, ss, es) && i <= |es| && PromotesStarted(ss)
    ensures NoneUndercuts(ss, es, 0, i)
  {
    forall k | 0 <= k < i
      ensures !Undercuts(ss[k].hub, es[k])
    {
      assert Started(ss[k]);
      StepAt(sig, ss, es, k);
    }
  }

  // ---------- The order of triggers ----------

  /** Jobs come out in the order of their triggers, with adds and cancels freely mixed in: from the moment on in which
      the current spoke is ahead, and as long as no add undercuts it, each job that Next returns is a least job of the
      past spoke if that spoke has jobs, and a least job of all other spokes if it has none. */
  lemma TriggerOrder(sig: string -> Signature, ss: seq<HubState>, es: seq<Event>, span: int, n: nat, i: nat)
    requires RunFromNew(sig, ss, es, span) && n <= i < |es| && CurrentFirst(ss[n].hub) && NoneUndercuts(ss, es, n, i)
    requires es[i].NextEvent? && es[i].result.Some?
    ensures if ss[i].hub.past.pending != multiset{} then Head(ss[i].hub.past, es[i].result.value)
            else LeastLater(ss[i].hub, es[i].result.value)
  {
    ReachableShape(sig, ss, es, span, i);
    ReachableCurrentFirst(sig, ss, es, span, n, i);
    ReachablePastDue(sig, ss, es, span, i);
    assert Step(sig, ss[i], es[i], ss[i + 1]);
    NextInOrder(sig, ss[i], es[i], ss[i + 1]);
  }

  /** In particular this is so in every run in which no call of Next pins early. */
  lemma OrderWithoutPinningEarly(sig: string -> Signature, ss: seq<HubState>, es: seq<Event>, span: int, i: nat)
    requires RunFromNew(sig, ss, es, span) && i < |es| && es[i].NextEvent? && es[i].result.Some?
    requires forall k :: 0 <= k < |es| ==> !PinsEarly(ss[k].hub, es[k])
    ensures if ss[i].hub.past.pending != multiset{} then Head(ss[i].hub.past, es[i].result.value)
            else LeastLater(ss[i].hub, es[i].result.value)
  {
    PromotesStartedIff(sig, ss, es, span);
    StartedNeverUndercut(sig, ss, es, i);
    TriggerOrder(sig, ss, es, span, 0, i);
  }

  lemma NextInOrder(sig: string -> Signature, s: HubState, e: Event, s': HubState)
    requires Shaped(s.hub) && CurrentFirst(s.hub) && PastDue(s) && Step(sig, s, e, s')
    requires e.NextEvent? && e.result.Some?
    ensures if s.hub.past.pending != multiset{} then Head(s.hub.past, e.result.value)
            else LeastLater(s.hub, e.result.value)
  {
    var v := s.hub;
    if k :| k in v.past.pending {
      assert k.triggerAt <= e.pastNow;
    } else {
      var t := ServedFrom(sig, v, e.pastNow, e.expiryNow, e.readyNow, s'.hub, e.result);
      OrderIff(sig, v, e.pastNow, e.expiryNow, e.readyNow, s'.hub, e.result, t);
      ServedFirst(v, e.expiryNow, t);
    }
  }

  lemma ServedFirst(v: HubView, expiryNow: int, s: SpokeView)
    requires Shaped(v) && CurrentFirst(v) && Serves(v, expiryNow, s)
    ensures NoneEarlier(v.queued, s.bound)
  {
  }

  // ---------- One order for all jobs ----------

  /** j is due no later than any job in the hub. */
  ghost predicate LeastOfAll(v: HubView, j: Job) {
    forall k <- Pending(v) :: j.triggerAt <= k.triggerAt
  }

  /** No job of the past spoke is due later than a job outside it. */
  ghost predicate PastFirst(v: HubView) {
    forall p <- v.past.pending, k <- LaterPending(v) :: p.triggerAt <= k.triggerAt
  }

  /** An accepted job goes to the past spoke although a job outside it is due earlier. */
  ghost predicate Overtakes(v: HubView, e: Event) {
    && e.AddEvent? && e.added == Accepted && e.job.triggerAt <= e.now
    && exists k <- LaterPending(v) :: k.triggerAt < e.job.triggerAt
  }

  /** Exactly the adds that overtake break the order between the past spoke and the others. */
  lemma PastFirstIff(sig: string -> Signature, s: HubState, e: Event, s': HubState)
    requires Shaped(s.hub) && Counted(s.hub) && PastDue(s) && PastFirst(s.hub) && Step(sig, s, e, s')
    ensures PastFirst(s'.hub) <==> !Overtakes(s.hub, e)
  {
    if e.AddEvent? {
      if e.added == Accepted {
        PlacedPastFirst(s, e.job, e.now);
        SameContents(Place(s.hub, e.job, e.now).value, s'.hub);
      }
    } else {
      NothingAdded(sig, s.hub, e, s'.hub);
    }
  }

  lemma SameContents(v: HubView, w: HubView)
    requires v.past == w.past && v.current == w.current && v.queued == w.queued
    ensures LaterPending(v) == LaterPending(w) && (PastFirst(v) <==> PastFirst(w))
  {
  }

  lemma PlacedPastFirst(s: HubState, j: Job, now: int)
    requires Shaped(s.hub) && PastDue(s) && PastFirst(s.hub) && s.clock <= now && Place(s.hub, j, now).Some?
    ensures PastFirst(Place(s.hub, j, now).value) <==>
            !(j.triggerAt <= now && exists k <- LaterPending(s.hub) :: k.triggerAt < j.triggerAt)
  {
    var v, w := s.hub, Place(s.hub, j, now).value;
    PlaceContents(v, j, now);
    if j.triggerAt <= now {
      assert j in w.past.pending;
    }
  }

  /** Where a placed job is found. */
  lemma PlaceContents(v: HubView, j: Job, now: int)
    requires Shaped(v) && Place(v, j, now).Some?
    ensures var w := Place(v, j, now).value;
            if j.triggerAt <= now then
              w.past.pending == v.past.pending + multiset{j} && LaterPending(w) == LaterPending(v)
            else
              w.past.pending == v.past.pending && LaterPending(w) == LaterPending(v) + multiset{j}
  {
    var w := Place(v, j, now).value;
    PlaceTarget(v, j, now);
    PlaceKeeps(v, j, now);
    if j.triggerAt > now {
      LaterGrows(v.past.pending, LaterPending(v), LaterPending(w), j);
    }
  }

  lemma LaterGrows(past: multiset<Job>, later: multiset<Job>, later': multiset<Job>, j: Job)
    requires past + later' == past + later + multiset{j}
    ensures later' == later + multiset{j}
  {
    assert later' == past + later' - past;
    assert later + multiset{j} == past + later + multiset{j} - past;
  }

  /** Cancel and Next bring nothing into either part of the hub. */
  lemma NothingAdded(sig: string -> Signature, v: HubView, e: Event, v': HubView)
    requires Shaped(v) && Counted(v) && HubStep(sig, v, e, v') && !e.AddEvent?
    ensures v'.past.pending <= v.past.pending && LaterPending(v') <= LaterPending(v)
  {
    StepKeeps(sig, v, e, v');
    PastAfter(sig, v, e, v');
    LaterShrinks(v.past.pending, LaterPending(v), v'.past.pending, LaterPending(v'), Loss(e));
  }

  lemma PastAfter(sig: string -> Signature, v: HubView, e: Event, v': HubView)
    requires HubStep(sig, v, e, v') && !e.AddEvent?
    ensures v'.past.pending == v.past.pending || v'.past.pending == v.past.pending - Loss(e)
  {
    if e.CancelEvent? {
      PastAfterCancel(sig, v, e.id, v', e.result);
    } else {
      PastAfterNext(sig, v, e.pastNow, e.expiryNow, e.readyNow, v', e.result);
    }
  }

  lemma LaterShrinks(past: multiset<Job>, later: multiset<Job>, past': multiset<Job>, later': multiset<Job>,
                     loss: multiset<Job>)
    requires past' + later' + loss == past + later && |loss| <= 1 && (past' == past || past' == past - loss)
    ensures past' <= past && later' <= later
  {
    if j :| j in loss {
      assert |loss - multiset{j}| == 0;
      assert loss == multiset{j};
    }
    forall k | k in later'
      ensures later'[k] <= later[k]
    {
      assert (past' + later' + loss)[k] == (past + later)[k];
    }
  }

  /** Exactly when one call of Next respects the order of all jobs. With jobs in the past spoke, no job outside it may
      be due before all of them; without, no waiting spoke with jobs may start before the spoke served. */
  lemma OrderOfAllIff(sig: string -> Signature, s: HubState, e: Event, s': HubState, t: SpokeView)
    requires Shaped(s.hub) && PastDue(s) && Step(sig, s, e, s') && e.NextEvent? && e.result.Some?
    requires Serves(s.hub, e.expiryNow, t) || s.hub.past.pending != multiset{}
    ensures LeastOfAll(s.hub, e.result.value) <==>
            if s.hub.past.pending != multiset{} then
              !exists k <- LaterPending(s.hub) :: forall p <- s.hub.past.pending :: k.triggerAt < p.triggerAt
            else
              NoneEarlier(s.hub.queued, t.bound)
  {
    var v, r := s.hub, e.result.value;
    if p :| p in v.past.pending {
      assert p.triggerAt <= e.pastNow;
      LeastPast(v, r);
    } else {
      assert Pending(v) == LaterPending(v);
      OrderIff(sig, v, e.pastNow, e.expiryNow, e.readyNow, s'.hub, e.result, t);
    }
  }

  lemma LeastPast(v: HubView, j: Job)
    requires Head(v.past, j)
    ensures LeastOfAll(v, j) <==>
            !exists k <- LaterPending(v) :: forall p <- v.past.pending :: k.triggerAt < p.triggerAt
  {
    forall k <- Pending(v)
      ensures k in v.past.pending || k in LaterPending(v)
    {
    }
    if k :| k in LaterPending(v) && k.triggerAt < j.triggerAt {
      assert k in Pending(v);
    }
  }

  /** From a moment on in which the current spoke is ahead and no job of the past spoke is due after another, and as
      long as no add undercuts and none overtakes, there is one order for all jobs: whatever Next returns is due no
      later than any other job in the hub. */
  lemma OneOrder(sig: string -> Signature, ss: seq<HubState>, es: seq<Event>, span: int, n: nat, i: nat)
    requires RunFromNew(sig, ss, es, span) && n <= i < |es| && CurrentFirst(ss[n].hub) && NoneUndercuts(ss, es, n, i)
    requires PastFirst(ss[n].hub) && forall k :: n <= k < i ==> !Overtakes(ss[k].hub, es[k])
    requires es[i].NextEvent? && es[i].result.Some?
    ensures LeastOfAll(ss[i].hub, es[i].result.value)
  {
    TriggerOrder(sig, ss, es, span, n, i);
    ReachablePastFirst(sig, ss, es, span, n, i);
    LeastOfBoth(ss[i].hub, es[i].result.value);
  }

  lemma LeastOfBoth(v: HubView, j: Job)
    requires PastFirst(v) && if v.past.pending != multiset{} then Head(v.past, j) else LeastLater(v, j)
    ensures LeastOfAll(v, j)
  {
    forall k <- Pending(v)
      ensures j.triggerAt <= k.triggerAt
    {
      assert k in v.past.pending || k in LaterPending(v);
    }
  }

  lemma {:induction false} ReachablePastFirst(sig: string -> Signature, ss: seq<HubState>, es: seq<Event>, span: int,
                                              n: nat, i: nat)
    requires RunFromNew(sig, ss, es, span) && n <= i < |ss| && PastFirst(ss[n].hub)
    requires forall k :: n <= k < i ==> !Overtakes(ss[k].hub, es[k])
    ensures PastFirst(ss[i].hub)
  {
    if i > n {
      var k := i - 1;
      ReachablePastFirst(sig, ss, es, span, n, k);
      ReachableShape(sig, ss, es, span, k);
      ReachablePastDue(sig, ss, es, span, k);
      assert Step(sig, ss[k], es[k], ss[k + 1]);
      PastFirstIff(sig, ss[k], es[k], ss[i]);
    }
  }

  // ---------- Two runs that break the naive promise ----------

  function Filled(b: Bound, j: Job): SpokeView {
    SpokeView(b, multiset{j}, map[j.id := j])
  }

  const BUCKET10 := Bound(10, 20)
  const BUCKET20 := Bound(20, 30)

  /** v after adding j to a new spoke. */
  function Opened(sig: string -> Signature, v: HubView, b: Bound, j: Job): HubView {
    v.(queued := v.queued[b := Filled(b, j)],
       filter := v.filter + multiset{sig(j.id)},
       stats := JobAdded(SpokeAdded(v.stats)))
  }

  /** v with its only spoke pinned. */
  function Pinned(v: HubView, b: Bound, j: Job): HubView {
    v.(current := Some(Filled(b, j)), queued := map[])
  }

  function Drawn(sig: string -> Signature, v: HubView, b: Bound, j: Job): HubView {
    Settle(sig, v.(current := Some(Take(Filled(b, j), j))), j.id)
  }

  /** A hub of span 10 with a waiting job in each of two buckets. */
  function TwoWaiting(sig: string -> Signature, early: Job, late: Job): HubView {
    Opened(sig, Opened(sig, NewHub(10, 0), BUCKET20, late), BUCKET10, early)
  }

  lemma TwoAdds(sig: string -> Signature, early: Job, late: Job) returns (ss: seq<HubState>, es: seq<Event>)
    requires early.triggerAt == 15 && late.triggerAt == 25 && early.id != late.id
    ensures RunFromNew(sig, ss, es, 10) && |es| == 2 && ss[2] == HubState(TwoWaiting(sig, early, late), 1)
    ensures forall s <- ss :: s.hub.current == None
  {
    var v0 := NewHub(10, 0);
    var v1 := Opened(sig, v0, BUCKET20, late);
    AddStep(sig, v0, 0, late, 0, BUCKET20);
    ss, es := Extended(sig, [HubState(v0, 0)], [], AddEvent(late, 0, Accepted), HubState(v1, 0));
    AddStep(sig, v1, 0, early, 1, BUCKET10);
    ss, es := Extended(sig, ss, es, AddEvent(early, 1, Accepted), HubState(TwoWaiting(sig, early, late), 1));
  }

  function AfterPinning(sig: string -> Signature, early: Job, late: Job): HubView {
    Opened(sig, Pinned(Opened(sig, NewHub(10, 0), BUCKET20, late), BUCKET20, late), BUCKET10, early)
  }

  /** A spoke is pinned before it starts, and a job added later but due earlier waits behind it: with span 10, the
      spoke from 20 to 30 is current at 0; a job due at 15 undercuts it and is queued in the spoke from 10 to 20, and at
      40 Next returns the job due at 25 first. */
  lemma PinnedTooEarly(sig: string -> Signature, early: Job, late: Job)
    requires early.triggerAt == 15 && late.triggerAt == 25 && early.id != late.id
    ensures exists ss: seq<HubState>, es: seq<Event> ::
              && RunFromNew(sig, ss, es, 10) && |es| == 4
              && es[1] == NextEvent(0, 0, 0, None) && PinsEarly(ss[1].hub, es[1]) && !Started(ss[2])
              && es[2] == AddEvent(early, 1, Accepted) && Undercuts(ss[2].hub, es[2])
              && es[3] == NextEvent(40, 40, 40, Some(late))
              && ss[3].hub.past.pending == multiset{} && !LeastLater(ss[3].hub, late)
  {
    var ss, es := PinnedRun(sig, early, late);
    assert PinsEarly(ss[1].hub, es[1]);
    LaterMember(ss[3].hub, early);
    assert early in ss[3].hub.queued[BUCKET10].pending;
  }

  lemma PinnedRun(sig: string -> Signature, early: Job, late: Job) returns (ss: seq<HubState>, es: seq<Event>)
    requires early.triggerAt == 15 && late.triggerAt == 25 && early.id != late.id
    ensures RunFromNew(sig, ss, es, 10) && |es| == 4
    ensures es[1] == NextEvent(0, 0, 0, None) && es[2] == AddEvent(early, 1, Accepted)
    ensures es[3] == NextEvent(40, 40, 40, Some(late)) && ss[3].hub == AfterPinning(sig, early, late)
    ensures ss[1].hub == Opened(sig, NewHub(10, 0), BUCKET20, late)
    ensures ss[2] == HubState(Pinned(ss[1].hub, BUCKET20, late), 0)
  {
    var v0 := NewHub(10, 0);
    var v1 := Opened(sig, v0, BUCKET20, late);
    var v2 := Pinned(v1, BUCKET20, late);
    var v3 := Opened(sig, v2, BUCKET10, early);
    AddStep(sig, v0, 0, late, 0, BUCKET20);
    ss, es := Extended(sig, [HubState(v0, 0)], [], AddEvent(late, 0, Accepted), HubState(v1, 0));
    PinStep(sig, v1, BUCKET20, late);
    ss, es := Extended(sig, ss, es, NextEvent(0, 0, 0, None), HubState(v2, 0));
    AddStep(sig, v2, 0, early, 1, BUCKET10);
    ss, es := Extended(sig, ss, es, AddEvent(early, 1, Accepted), HubState(v3, 1));
    DrawStep(sig, v3, BUCKET20, late);
    ss, es := Extended(sig, ss, es, NextEvent(40, 40, 40, Some(late)), HubState(Drawn(sig, v3, BUCKET20, late), 40));
  }

  lemma AddStep(sig: string -> Signature, v: HubView, clock: int, j: Job, now: int, b: Bound)
    requires v.span == 10 && clock <= now < j.triggerAt && b == BoundOf(j.triggerAt, 10)
    requires b !in v.queued && !Owned(v, j.id)
    requires v.current.Some? ==> v.current.value.bound != b && !v.current.value.bound.ContainsTime(j.triggerAt)
    ensures Run(sig, [HubState(v, clock), HubState(Opened(sig, v, b, j), now)], [AddEvent(j, now, Accepted)])
  {
    BoundOfContains(j.triggerAt, 10);
    assert Insert(EmptySpoke(b), j) == Filled(b, j);
    assert AfterAdd(sig, v, j, now) == (Opened(sig, v, b, j), Accepted);
    OneStep(sig, HubState(v, clock), AddEvent(j, now, Accepted), HubState(Opened(sig, v, b, j), now));
  }

  lemma PinStep(sig: string -> Signature, v: HubView, b: Bound, j: Job)
    requires v.current.None? && v.queued == map[b := Filled(b, j)] && v.past.pending == multiset{} && 0 < j.triggerAt
    ensures Run(sig, [HubState(v, 0), HubState(Pinned(v, b, j), 0)], [NextEvent(0, 0, 0, None)])
  {
    assert Earliest(v.queued, b);
    assert v.queued - {b} == map[];
    assert Serve(sig, Promote(v, b), CurrentSpoke, 0, Promote(v, b), None);
    assert NextStep(sig, v, 0, 0, 0, Pinned(v, b, j), None);
    OneStep(sig, HubState(v, 0), NextEvent(0, 0, 0, None), HubState(Pinned(v, b, j), 0));
  }

  lemma DrawStep(sig: string -> Signature, v: HubView, b: Bound, j: Job)
    requires v.current == Some(Filled(b, j)) && v.past.pending == multiset{} && j.triggerAt <= 40
    ensures Run(sig, [HubState(v, 1), HubState(Drawn(sig, v, b, j), 40)], [NextEvent(40, 40, 40, Some(j))])
  {
    assert j in v.current.value.pending;
    assert NextStep(sig, v, 40, 40, 40, Drawn(sig, v, b, j), Some(j));
    OneStep(sig, HubState(v, 1), NextEvent(40, 40, 40, Some(j)), HubState(Drawn(sig, v, b, j), 40));
  }

  /** The past spoke breaks the one order: a job due at 10 waits in its own spoke, a job due at 15 is added at 20, and
      at 20 Next returns the latter. No spoke has been pinned. */
  lemma PastOvertakes(sig: string -> Signature, overdue: Job, waiting: Job)
    requires overdue.triggerAt == 15 && waiting.triggerAt == 10 && overdue.id != waiting.id
    ensures exists ss: seq<HubState>, es: seq<Event> ::
              && RunFromNew(sig, ss, es, 10) && |es| == 3 && ss[2].hub.current == None
              && Overtakes(ss[1].hub, es[1]) && es[2] == NextEvent(20, 20, 20, Some(overdue))
              && waiting in LaterPending(ss[2].hub) && !LeastOfAll(ss[2].hub, overdue)
  {
    var v1 := Opened(sig, NewHub(10, 0), BUCKET10, waiting);
    var ss, es := OvertakingRun(sig, overdue, waiting, v1);
    var v2 := ss[2].hub;
    assert waiting in v1.queued[BUCKET10].pending && v2.queued == v1.queued;
    LaterMember(v1, waiting);
    LaterMember(v2, waiting);
    assert waiting in Pending(v2);
  }

  lemma OvertakingRun(sig: string -> Signature, overdue: Job, waiting: Job, v1: HubView)
    returns (ss: seq<HubState>, es: seq<Event>)
    requires overdue.triggerAt == 15 && waiting.triggerAt == 10 && overdue.id != waiting.id
    requires v1 == Opened(sig, NewHub(10, 0), BUCKET10, waiting)
    ensures RunFromNew(sig, ss, es, 10) && |es| == 3 && ss[1].hub == v1
    ensures ss[2].hub == Late(sig, v1, overdue)
    ensures es[1] == AddEvent(overdue, 20, Accepted) && es[2] == NextEvent(20, 20, 20, Some(overdue))
  {
    AddStep(sig, NewHub(10, 0), 0, waiting, 0, BUCKET10);
    ss, es := Extended(sig, [HubState(NewHub(10, 0), 0)], [], AddEvent(waiting, 0, Accepted), HubState(v1, 0));
    LateStep(sig, v1, overdue);
    ss, es := Extended(sig, ss, es, AddEvent(overdue, 20, Accepted), HubState(Late(sig, v1, overdue), 20));
    var v3 := PastStep(sig, Late(sig, v1, overdue), overdue);
    ss, es := Extended(sig, ss, es, NextEvent(20, 20, 20, Some(overdue)), HubState(v3, 20));
  }

  /** v after adding an overdue job. */
  function Late(sig: string -> Signature, v: HubView, j: Job): HubView {
    Admit(sig, v.(past := Insert(v.past, j)), j.id)
  }

  lemma LateStep(sig: string -> Signature, v: HubView, j: Job)
    requires v.past.bound == NewHub(10, 0).past.bound && 0 <= j.triggerAt <= 20 && !Owned(v, j.id)
    ensures Run(sig, [HubState(v, 0), HubState(Late(sig, v, j), 20)], [AddEvent(j, 20, Accepted)])
  {
    assert AfterAdd(sig, v, j, 20) == (Late(sig, v, j), Accepted);
    OneStep(sig, HubState(v, 0), AddEvent(j, 20, Accepted), HubState(Late(sig, v, j), 20));
  }

  lemma PastStep(sig: string -> Signature, v: HubView, j: Job) returns (w: HubView)
    requires v.past.pending == multiset{j} && j.triggerAt <= 20
    ensures Run(sig, [HubState(v, 20), HubState(w, 20)], [NextEvent(20, 20, 20, Some(j))])
  {
    assert j in v.past.pending && Ready(v.past, 20);
    w := Settle(sig, WithSpoke(v, PastSpoke, Take(v.past, j)), j.id);
    assert Serve(sig, v, PastSpoke, 20, w, Some(j));
    OneStep(sig, HubState(v, 20), NextEvent(20, 20, 20, Some(j)), HubState(w, 20));
  }
}

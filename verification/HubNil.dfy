/** What it means when Next has no job to give. */
module HubNil {
  import opened Options
  import opened Temporal
  import opened Jobs
  import opened SpokeModel
  import opened HubModel
  import opened HubInvariants
  import opened HubRuns
  import opened HubOrder

  /** The call has to pin a new spoke, and the spoke it will pin holds no jobs. */
  ghost predicate PinsEmpty(v: HubView, expiryNow: int) {
    var w := Expire(v, expiryNow);
    w.current.None? && exists b :: Earliest(w.queued, b) && w.queued[b].pending == multiset{}
  }

  lemma EarliestIsUnique(v: HubView, b: Bound, c: Bound)
    requires Shaped(v) && Earliest(v.queued, b) && Earliest(v.queued, c)
    ensures b == c
  {
    AlignedApart(b, c, v.span);
  }

  lemma PinsEmptyAt(v: HubView, expiryNow: int, b: Bound)
    requires Shaped(v) && Expire(v, expiryNow).current.None? && Earliest(v.queued, b)
    ensures PinsEmpty(v, expiryNow) <==> v.queued[b].pending == multiset{}
  {
    forall c | Earliest(v.queued, c)
      ensures c == b
    {
      EarliestIsUnique(v, b, c);
    }
  }

  /** Jobs of the earliest waiting spoke are due before jobs of the other ones. */
  lemma EarliestFirst(v: HubView, b: Bound, j: Job, k: Job)
    requires Shaped(v) && Earliest(v.queued, b) && j in v.queued[b].pending
    requires exists c <- v.queued :: k in v.queued[c].pending
    ensures k in v.queued[b].pending || j.triggerAt < k.triggerAt
  {
    var c :| c in v.queued && k in v.queued[c].pending;
    AlignedApart(b, c, v.span);
  }

  /** Next misses a job that was due before the call exactly when it has to pin a new spoke and the earliest
      waiting spoke is empty. */
  lemma MissIff(sig: string -> Signature, s: HubState, e: Event, s': HubState, k: Job)
    requires Shaped(s.hub) && CurrentFirst(s.hub) && Step(sig, s, e, s') && e.NextEvent?
    requires k in Pending(s.hub) && k.triggerAt < e.pastNow
    ensures e.result.None? <==> !Ready(s.hub.past, e.pastNow) && PinsEmpty(s.hub, e.expiryNow)
  {
    var v := s.hub;
    if !Ready(v.past, e.pastNow) {
      assert k in LaterPending(v);
      LaterMember(v, k);
      if Expire(v, e.expiryNow).current.Some? {
        MissKept(sig, v, e, s'.hub, k);
      } else {
        MissPinned(sig, v, e, s'.hub, k);
      }
    }
  }

  /** The spoke that Next looks into has no due job: the current one is kept and has none, or an empty one is pinned. */
  ghost predicate ServesNothing(v: HubView, expiryNow: int, readyNow: int) {
    var w := Expire(v, expiryNow);
    if w.current.Some? then !Ready(w.current.value, readyNow) else PinsEmpty(v, expiryNow)
  }

  /** The same without any assumption on the current spoke, which may have been pinned before its start: then Next also
      misses an overdue job if the current spoke is kept and none of its own jobs is due. */
  lemma MissIffAnyCurrent(sig: string -> Signature, s: HubState, e: Event, s': HubState, k: Job)
    requires Shaped(s.hub) && Step(sig, s, e, s') && e.NextEvent?
    requires k in Pending(s.hub) && k.triggerAt < e.pastNow
    ensures e.result.None? <==> !Ready(s.hub.past, e.pastNow) && ServesNothing(s.hub, e.expiryNow, e.readyNow)
  {
    var v := s.hub;
    if !Ready(v.past, e.pastNow) && Expire(v, e.expiryNow).current.None? {
      assert k in LaterPending(v);
      LaterMember(v, k);
      MissPinned(sig, v, e, s'.hub, k);
    }
  }

  lemma MissKept(sig: string -> Signature, v: HubView, e: Event, v': HubView, k: Job)
    requires Shaped(v) && CurrentFirst(v) && e.NextEvent? && e.pastNow <= e.expiryNow <= e.readyNow
    requires Expire(v, e.expiryNow).current.Some?
    requires NextFromCurrent(sig, Expire(v, e.expiryNow), e.readyNow, v', e.result)
    requires k in CurrentPending(v) || exists b <- v.queued :: k in v.queued[b].pending
    requires k.triggerAt < e.pastNow
    ensures e.result.Some?
  {
    var c := v.current.value;
    if k !in c.pending {
      var b :| b in v.queued && k in v.queued[b].pending;
      if j :| j in c.pending {
        assert j.triggerAt < c.bound.end;
      }
    }
  }

  lemma MissPinned(sig: string -> Signature, v: HubView, e: Event, v': HubView, k: Job)
    requires Shaped(v) && e.NextEvent? && e.pastNow <= e.expiryNow <= e.readyNow
    requires Expire(v, e.expiryNow).current.None?
    requires NextFromCurrent(sig, Expire(v, e.expiryNow), e.readyNow, v', e.result)
    requires k in CurrentPending(v) || exists b <- v.queued :: k in v.queued[b].pending
    requires k.triggerAt < e.pastNow
    ensures e.result.None? <==> PinsEmpty(v, e.expiryNow)
  {
    var w := Expire(v, e.expiryNow);
    var b := WhichPinned(sig, w, e.readyNow, v', e.result);
    PinsEmptyAt(v, e.expiryNow, b);
    if j :| j in w.queued[b].pending {
      EarliestFirst(v, b, j, k);
    }
  }

  lemma PastIsReady(v: HubView, now: int)
    requires forall j <- v.past.pending :: j.triggerAt <= now
    ensures v.past.pending == multiset{} || Ready(v.past, now)
  {
    if j :| j in v.past.pending {
      assert j.triggerAt <= now;
    }
  }

  /** The answer nil has four meanings: the hub is empty; the current spoke has jobs and no job is due; the current
      spoke is empty and has not expired, and whatever is due falls due exactly at its end; or a spoke
      without jobs has just been pinned, and no job is due before its end. */
  lemma MeaningOfNil(sig: string -> Signature, s: HubState, e: Event, s': HubState)
    requires Shaped(s.hub) && CurrentFirst(s.hub) && PastDue(s)
    requires Step(sig, s, e, s') && e.NextEvent? && e.result.None?
    ensures
      || Pending(s.hub) == multiset{}
      || (s'.hub.current.Some? && s'.hub.current.value.pending != multiset{}
          && forall k <- Pending(s.hub) :: e.pastNow < k.triggerAt)
      || (s.hub.current.Some? && s'.hub == s.hub && s.hub.current.value.pending == multiset{}
          && e.expiryNow <= s.hub.current.value.bound.end
          && forall k <- Pending(s.hub) ::
               k.triggerAt <= e.pastNow ==> k.triggerAt == e.pastNow == s.hub.current.value.bound.end)
      || (PinsEmpty(s.hub, e.expiryNow) && s'.hub.current.Some? && s'.hub.current.value.pending == multiset{}
          && forall k <- Pending(s.hub) :: s'.hub.current.value.bound.end <= k.triggerAt)
  {
    var v, v' := s.hub, s'.hub;
    var w := Expire(v, e.expiryNow);
    PastIsReady(v, e.pastNow);
    if w.current.Some? {
      NilKept(sig, v, e, v');
    } else if PinsEmpty(v, e.expiryNow) {
      NilPinnedEmpty(sig, v, e, v');
    } else {
      NilPinned(sig, v, e, v');
    }
  }

  lemma NilKept(sig: string -> Signature, v: HubView, e: Event, v': HubView)
    requires Shaped(v) && CurrentFirst(v) && e.NextEvent? && e.result.None? && e.pastNow <= e.expiryNow <= e.readyNow
    requires NextStep(sig, v, e.pastNow, e.expiryNow, e.readyNow, v', e.result)
    requires Expire(v, e.expiryNow).current.Some?
    ensures v' == v && v.current.Some?
    ensures v.current.value.pending == multiset{} ==> e.expiryNow <= v.current.value.bound.end
    ensures forall k <- Pending(v) ::
              if v.current.value.pending != multiset{} then e.pastNow < k.triggerAt
              else e.pastNow < k.triggerAt || k.triggerAt == e.pastNow == v.current.value.bound.end
  {
    var c := v.current.value;
    forall k <- Pending(v)
      ensures if c.pending != multiset{} then e.pastNow < k.triggerAt
              else e.pastNow < k.triggerAt || k.triggerAt == e.pastNow == c.bound.end
    {
      if k !in v.past.pending {
        LaterMember(v, k);
        if k !in c.pending {
          var b :| b in v.queued && k in v.queued[b].pending;
          if j :| j in c.pending {
            assert j.triggerAt < c.bound.end;
          }
        }
      }
    }
  }

  lemma NilPinnedEmpty(sig: string -> Signature, v: HubView, e: Event, v': HubView)
    requires Shaped(v) && v.past.pending == multiset{} && e.NextEvent? && e.result.None?
    requires NextFromCurrent(sig, Expire(v, e.expiryNow), e.readyNow, v', e.result)
    requires PinsEmpty(v, e.expiryNow)
    ensures v'.current.Some? && v'.current.value.pending == multiset{}
    ensures forall k <- Pending(v) :: v'.current.value.bound.end <= k.triggerAt
  {
    var w := Expire(v, e.expiryNow);
    var b := WhichPinned(sig, w, e.readyNow, v', e.result);
    PinsEmptyAt(v, e.expiryNow, b);
    forall k <- Pending(v)
      ensures b.end <= k.triggerAt
    {
      LaterMember(v, k);
      var c :| c in v.queued && k in v.queued[c].pending;
      AlignedApart(b, c, v.span);
    }
  }

  lemma NilPinned(sig: string -> Signature, v: HubView, e: Event, v': HubView)
    requires Shaped(v) && v.past.pending == multiset{} && e.NextEvent? && e.result.None? && e.pastNow <= e.readyNow
    requires NextFromCurrent(sig, Expire(v, e.expiryNow), e.readyNow, v', e.result)
    requires Expire(v, e.expiryNow).current.None? && !PinsEmpty(v, e.expiryNow)
    ensures Pending(v) == multiset{} || (v'.current.Some? && v'.current.value.pending != multiset{})
    ensures forall k <- Pending(v) :: e.pastNow < k.triggerAt
  {
    if v.queued != map[] {
      var b :| Earliest(v.queued, b)
               && Serve(sig, Promote(Expire(v, e.expiryNow), b), CurrentSpoke, e.readyNow, v', e.result);
      PinsEmptyAt(v, e.expiryNow, b);
      var j :| j in v.queued[b].pending;
      forall k <- Pending(v)
        ensures e.pastNow < k.triggerAt
      {
        LaterMember(v, k);
        EarliestFirst(v, b, j, k);
      }
    }
  }

  // ---------- Runs without cancels ----------

  /** Every waiting spoke has jobs. */
  ghost predicate NoneEmpty(v: HubView) {
    forall b <- v.queued :: v.queued[b].pending != multiset{}
  }

  lemma StepKeepsNoneEmpty(sig: string -> Signature, v: HubView, e: Event, v': HubView)
    requires NoneEmpty(v) && HubStep(sig, v, e, v') && !e.CancelEvent?
    ensures NoneEmpty(v')
  {
    match e
    case AddEvent(j, now, added) =>
      AddKeepsNoneEmpty(sig, v, j, now);
    case NextEvent(pastNow, expiryNow, readyNow, r) =>
      NextKeepsNoneEmpty(sig, v, pastNow, expiryNow, readyNow, v', r);
  }

  lemma AddKeepsNoneEmpty(sig: string -> Signature, v: HubView, j: Job, now: int)
    requires NoneEmpty(v)
    ensures NoneEmpty(AfterAdd(sig, v, j, now).0)
  {
    var w := AfterAdd(sig, v, j, now).0;
    forall b <- w.queued
      ensures w.queued[b].pending != multiset{}
    {
      assert (b in v.queued && w.queued[b] == v.queued[b]) || j in w.queued[b].pending;
    }
  }

  lemma NextKeepsNoneEmpty(sig: string -> Signature, v: HubView, pastNow: int, expiryNow: int, readyNow: int,
                           v': HubView, r: Option<Job>)
    requires NoneEmpty(v) && NextStep(sig, v, pastNow, expiryNow, readyNow, v', r)
    ensures NoneEmpty(v')
  {
    if !Ready(v.past, pastNow) {
      var w := Expire(v, expiryNow);
      if w.current.None? && w.queued != map[] {
        var b :| Earliest(w.queued, b) && Serve(sig, Promote(w, b), CurrentSpoke, readyNow, v', r);
      }
    }
  }

  lemma {:induction false} ReachableNoneEmpty(sig: string -> Signature, ss: seq<HubState>, es: seq<Event>, span: int,
                                              n: nat, i: nat)
    requires RunFromNew(sig, ss, es, span) && n <= i < |ss| && NoneEmpty(ss[n].hub)
    requires forall k :: n <= k < i ==> !es[k].CancelEvent?
    ensures NoneEmpty(ss[i].hub)
  {
    if i > n {
      ReachableNoneEmpty(sig, ss, es, span, n, i - 1);
      RunStep(sig, ss, es, i - 1);
      StepKeepsNoneEmpty(sig, ss[i - 1].hub, es[i - 1], ss[i].hub);
    }
  }

  /** From a moment on in which the current spoke is ahead and no waiting spoke is empty, and as long as nobody cancels
      and no add undercuts the current spoke, Next never answers nil while a job is overdue. */
  lemma NoCancelNoMiss(sig: string -> Signature, ss: seq<HubState>, es: seq<Event>, span: int, n: nat, i: nat, k: Job)
    requires RunFromNew(sig, ss, es, span) && n <= i < |es| && CurrentFirst(ss[n].hub) && NoneUndercuts(ss, es, n, i)
    requires NoneEmpty(ss[n].hub) && forall m :: n <= m < i ==> !es[m].CancelEvent?
    requires es[i].NextEvent? && k in Pending(ss[i].hub) && k.triggerAt < es[i].pastNow
    ensures es[i].result.Some?
  {
    ReachableShape(sig, ss, es, span, i);
    ReachableCurrentFirst(sig, ss, es, span, n, i);
    ReachableNoneEmpty(sig, ss, es, span, n, i);
    assert Step(sig, ss[i], es[i], ss[i + 1]);
    MissIff(sig, ss[i], es[i], ss[i + 1], k);
  }

  /** A miss: of two jobs in different buckets the earlier one is cancelled, and Next at 40 answers nil although the
      other one has been due since 25. */
  lemma MissAfterCancel(sig: string -> Signature, early: Job, late: Job)
    returns (ss: seq<HubState>, es: seq<Event>)
    requires early.triggerAt == 15 && late.triggerAt == 25 && early.id != late.id
    ensures RunFromNew(sig, ss, es, 10) && PromotesStarted(ss) && |es| == 4
    ensures es[2] == CancelEvent(early.id, Some(early)) && es[3] == NextEvent(40, 40, 40, None)
    ensures late in Pending(ss[3].hub)
  {
    ss, es := CancelEarly(sig, early, late);
    StillWaiting(sig, early, late);
    ss, es := ThenMiss(sig, ss, es, ss[3].hub);
  }

  lemma ThenMiss(sig: string -> Signature, ss: seq<HubState>, es: seq<Event>, v: HubView)
    returns (ss': seq<HubState>, es': seq<Event>)
    requires RunFromNew(sig, ss, es, 10) && |es| == 3 && ss[3] == HubState(v, 1) && PromotesStarted(ss)
    requires v.current.None? && v.past.pending == multiset{}
    requires v.queued.Keys == {BUCKET10, BUCKET20} && v.queued[BUCKET10].pending == multiset{}
    requires v.queued[BUCKET10].bound == BUCKET10
    ensures RunFromNew(sig, ss', es', 10) && PromotesStarted(ss') && |es'| == 4
    ensures es <= es' && es'[3] == NextEvent(40, 40, 40, None) && ss <= ss'
  {
    PinEmpty(sig, v);
    ss', es' := Extended(sig, ss, es, NextEvent(40, 40, 40, None), HubState(Promote(v, BUCKET10), 40));
  }

  lemma CancelEarly(sig: string -> Signature, early: Job, late: Job) returns (ss: seq<HubState>, es: seq<Event>)
    requires early.triggerAt == 15 && late.triggerAt == 25 && early.id != late.id
    ensures RunFromNew(sig, ss, es, 10) && |es| == 3 && es[2] == CancelEvent(early.id, Some(early))
    ensures ss[3] == HubState(Emptied(sig, TwoWaiting(sig, early, late), BUCKET10, early), 1)
    ensures PromotesStarted(ss)
  {
    var v2 := TwoWaiting(sig, early, late);
    ss, es := TwoAdds(sig, early, late);
    CancelOnly(sig, v2, BUCKET10, early);
    ss, es := Extended(sig, ss, es, CancelEvent(early.id, Some(early)), HubState(Emptied(sig, v2, BUCKET10, early), 1));
  }

  lemma StillWaiting(sig: string -> Signature, early: Job, late: Job)
    requires early.triggerAt == 15 && late.triggerAt == 25 && early.id != late.id
    ensures var v := Emptied(sig, TwoWaiting(sig, early, late), BUCKET10, early);
            && v.current.None? && v.past.pending == multiset{}
            && v.queued.Keys == {BUCKET10, BUCKET20} && v.queued[BUCKET10].pending == multiset{}
            && v.queued[BUCKET10].bound == BUCKET10 && late in Pending(v)
  {
    var v := Emptied(sig, TwoWaiting(sig, early, late), BUCKET10, early);
    assert late in v.queued[BUCKET20].pending;
    LaterMember(v, late);
  }

  /** v after cancelling the only job of a waiting spoke. */
  function Emptied(sig: string -> Signature, v: HubView, b: Bound, j: Job): HubView
    requires b in v.queued
  {
    Settle(sig, WithSpoke(v, QueuedSpoke(b), Take(v.queued[b], j)), j.id)
  }

  lemma CancelOnly(sig: string -> Signature, v: HubView, b: Bound, j: Job)
    requires b in v.queued && v.queued[b] == Filled(b, j) && sig(j.id) in v.filter && v.current.None?
    requires j.id !in v.past.index
    ensures Run(sig, [HubState(v, 1), HubState(Emptied(sig, v, b, j), 1)], [CancelEvent(j.id, Some(j))])
  {
    assert IsOwner(v, j.id, QueuedSpoke(b));
    assert CancelAt(sig, v, j.id, QueuedSpoke(b), Emptied(sig, v, b, j), Some(j));
    OneStep(sig, HubState(v, 1), CancelEvent(j.id, Some(j)), HubState(Emptied(sig, v, b, j), 1));
  }

  lemma PinEmpty(sig: string -> Signature, v: HubView)
    requires v.current.None? && v.past.pending == multiset{}
    requires v.queued.Keys == {BUCKET10, BUCKET20} && v.queued[BUCKET10].pending == multiset{}
    ensures Run(sig, [HubState(v, 1), HubState(Promote(v, BUCKET10), 40)], [NextEvent(40, 40, 40, None)])
  {
    assert Earliest(v.queued, BUCKET10);
    assert Serve(sig, Promote(v, BUCKET10), CurrentSpoke, 40, Promote(v, BUCKET10), None);
    assert NextStep(sig, v, 40, 40, 40, Promote(v, BUCKET10), None);
    OneStep(sig, HubState(v, 1), NextEvent(40, 40, 40, None), HubState(Promote(v, BUCKET10), 40));
  }
}

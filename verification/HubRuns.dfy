/** Whole runs of the hub from its creation, with no assumption about the filter. */
module HubRuns {
  import opened Options
  import opened Jobs
  import opened SpokeModel
  import opened HubModel
  import opened HubInvariants

  /** All jobs the operations take in. */
  ghost function Gains(es: seq<Event>): multiset<Job> {
    if es == [] then multiset{} else Gains(es[..|es| - 1]) + Gain(es[|es| - 1])
  }

  /** All jobs the operations hand out, whether delivered or cancelled. */
  ghost function Losses(es: seq<Event>): multiset<Job> {
    if es == [] then multiset{} else Losses(es[..|es| - 1]) + Loss(es[|es| - 1])
  }

  lemma AccountStep(es: seq<Event>, i: nat)
    requires 0 < i <= |es|
    ensures Gains(es[..i]) == Gains(es[..i - 1]) + Gain(es[i - 1])
    ensures Losses(es[..i]) == Losses(es[..i - 1]) + Loss(es[i - 1])
  {
    assert es[..i][..i - 1] == es[..i - 1];
  }

  lemma StepAt(sig: string -> Signature, ss: seq<HubState>, es: seq<Event>, i: nat)
    requires Run(sig, ss, es) && i < |es|
    ensures Step(sig, ss[i], es[i], ss[i + 1])
  {
  }

  lemma RunStep(sig: string -> Signature, ss: seq<HubState>, es: seq<Event>, i: nat)
    requires Run(sig, ss, es) && i < |es|
    ensures HubStep(sig, ss[i].hub, es[i], ss[i + 1].hub)
  {
    assert Step(sig, ss[i], es[i], ss[i + 1]);
  }

  lemma OneStep(sig: string -> Signature, s: HubState, e: Event, s': HubState)
    requires Step(sig, s, e, s')
    ensures Run(sig, [s, s'], [e])
  {
  }

  /** A run that goes on by one step. */
  lemma Extended(sig: string -> Signature, ss: seq<HubState>, es: seq<Event>, e: Event, s: HubState)
    returns (ss': seq<HubState>, es': seq<Event>)
    requires Run(sig, ss, es) && Run(sig, [ss[|es|], s], [e])
    ensures Run(sig, ss', es') && ss' == ss + [s] && es' == es + [e]
  {
    ss', es' := ss + [s], es + [e];
    forall i | 0 <= i < |es'|
      ensures Step(sig, ss'[i], es'[i], ss'[i + 1])
    {
      if i < |es| {
        assert Step(sig, ss[i], es[i], ss[i + 1]);
      } else {
        assert Step(sig, [ss[|es|], s][0], [e][0], [ss[|es|], s][1]);
      }
    }
  }

  /** A run of a hub in order, from whatever state. */
  ghost predicate RunInOrder(sig: string -> Signature, ss: seq<HubState>, es: seq<Event>) {
    Run(sig, ss, es) && Shaped(ss[0].hub) && Counted(ss[0].hub)
  }

  /** Along it the hub keeps its shape, and its counters tell the truth. */
  lemma {:induction false} StaysShaped(sig: string -> Signature, ss: seq<HubState>, es: seq<Event>, i: nat)
    requires RunInOrder(sig, ss, es) && i < |ss|
    ensures Shaped(ss[i].hub) && Counted(ss[i].hub)
    ensures ss[i].hub.span == ss[0].hub.span && ss[i].hub.past.bound == ss[0].hub.past.bound
  {
    if i > 0 {
      var k := i - 1;
      StaysShaped(sig, ss, es, k);
      RunStep(sig, ss, es, k);
      StepKeeps(sig, ss[k].hub, es[k], ss[i].hub);
    }
  }

  /** Each operation moves its own jobs. */
  lemma MovesAt(sig: string -> Signature, ss: seq<HubState>, es: seq<Event>, i: nat)
    requires RunInOrder(sig, ss, es) && 0 < i < |ss|
    ensures Moves(ss[i - 1].hub, ss[i].hub, Gain(es[i - 1]), Loss(es[i - 1]))
  {
    var k := i - 1;
    StaysShaped(sig, ss, es, k);
    assert Step(sig, ss[k], es[k], ss[i]);
    StepKeeps(sig, ss[i - 1].hub, es[i - 1], ss[i].hub);
  }

  lemma NewInOrder(span: int, now: int)
    ensures Shaped(NewHub(span, now)) && Counted(NewHub(span, now)) && Pending(NewHub(span, now)) == multiset{}
  {
  }

  lemma NewRunInOrder(sig: string -> Signature, ss: seq<HubState>, es: seq<Event>, span: int)
    requires RunFromNew(sig, ss, es, span)
    ensures RunInOrder(sig, ss, es)
  {
    NewInOrder(span, ss[0].clock);
  }

  /** Every reachable hub has the shape of a hub, and counters that tell the truth. */
  lemma ReachableShape(sig: string -> Signature, ss: seq<HubState>, es: seq<Event>, span: int, i: nat)
    requires RunFromNew(sig, ss, es, span) && i < |ss|
    ensures Shaped(ss[i].hub) && Counted(ss[i].hub) && ss[i].hub.span == span
    ensures ss[i].hub.past.bound == NewHub(span, ss[0].clock).past.bound
    ensures 0 < i ==> Moves(ss[i - 1].hub, ss[i].hub, Gain(es[i - 1]), Loss(es[i - 1]))
  {
    NewRunInOrder(sig, ss, es, span);
    StaysShaped(sig, ss, es, i);
    if i > 0 {
      MovesAt(sig, ss, es, i);
    }
  }

  /** Conservation: at every moment of every run, the jobs taken in so far are the jobs handed out so far together
      with the jobs still queued, each counted as often as it occurs. So no job is lost, and none is handed out
      more often than it was taken in, be it delivered or cancelled. */
  lemma {:induction false} Conservation(sig: string -> Signature, ss: seq<HubState>, es: seq<Event>, span: int, i: nat)
    requires RunFromNew(sig, ss, es, span) && i < |ss|
    ensures Gains(es[..i]) == Losses(es[..i]) + Pending(ss[i].hub)
  {
    if i > 0 {
      Conservation(sig, ss, es, span, i - 1);
      AccountStep(es, i);
      StepBalance(sig, ss, es, span, i);
      Balance(Gains(es[..i - 1]), Losses(es[..i - 1]), Pending(ss[i - 1].hub), Pending(ss[i].hub),
              Gain(es[i - 1]), Loss(es[i - 1]));
    }
  }

  lemma StepBalance(sig: string -> Signature, ss: seq<HubState>, es: seq<Event>, span: int, i: nat)
    requires RunFromNew(sig, ss, es, span) && 0 < i < |ss|
    ensures Pending(ss[i].hub) + Loss(es[i - 1]) == Pending(ss[i - 1].hub) + Gain(es[i - 1])
  {
    ReachableShape(sig, ss, es, span, i);
  }

  lemma Balance(gains: multiset<Job>, losses: multiset<Job>, p: multiset<Job>, p': multiset<Job>,
                gain: multiset<Job>, loss: multiset<Job>)
    requires gains == losses + p && p' + loss == p + gain
    ensures gains + gain == losses + loss + p'
  {
    assert gains + gain == losses + (p + gain);
  }

  /** The counters agree with that account. */
  lemma {:induction false} CountersAddUp(sig: string -> Signature, ss: seq<HubState>, es: seq<Event>, span: int, i: nat)
    requires RunFromNew(sig, ss, es, span) && i < |ss|
    ensures ss[i].hub.stats.removedJobs == |Losses(es[..i])|
    ensures ss[i].hub.stats.currentJobs == |Gains(es[..i])| - |Losses(es[..i])|
  {
    ReachableShape(sig, ss, es, span, i);
    if i > 0 {
      CountersAddUp(sig, ss, es, span, i - 1);
      ReachableShape(sig, ss, es, span, i - 1);
      AccountStep(es, i);
      MovesCount(ss[i - 1].hub, ss[i].hub, Gain(es[i - 1]), Loss(es[i - 1]));
    }
  }

  lemma MovesCount(v: HubView, v': HubView, gain: multiset<Job>, loss: multiset<Job>)
    requires Counted(v) && Moves(v, v', gain, loss)
    ensures v'.stats.currentJobs == v.stats.currentJobs + |gain| - |loss|
    ensures v'.stats.removedJobs == v.stats.removedJobs + |loss|
  {
    assert |Pending(v') + loss| == |Pending(v) + gain|;
  }

  /** Jobs in the past spoke have reached their trigger. */
  ghost predicate PastDue(s: HubState) {
    forall j <- s.hub.past.pending :: j.triggerAt <= s.clock
  }

  lemma PastDueStep(sig: string -> Signature, s: HubState, e: Event, s': HubState)
    requires PastDue(s) && Step(sig, s, e, s')
    ensures PastDue(s')
  {
    forall j <- s'.hub.past.pending
      ensures j.triggerAt <= s'.clock
    {
      PastGrowth(sig, s.hub, e, s'.hub, j);
    }
  }

  /** Only adding a due job puts anything into the past spoke. */
  lemma PastGrowth(sig: string -> Signature, v: HubView, e: Event, v': HubView, j: Job)
    requires HubStep(sig, v, e, v') && j in v'.past.pending
    ensures j in v.past.pending || (e.AddEvent? && j == e.job && j.triggerAt <= e.now)
  {
    match e
    case AddEvent(k, now, added) =>
      PastAfterAdd(sig, v, k, now);
    case CancelEvent(id, r) =>
      PastAfterCancel(sig, v, id, v', r);
    case NextEvent(pastNow, expiryNow, readyNow, r) =>
      PastAfterNext(sig, v, pastNow, expiryNow, readyNow, v', r);
  }

  lemma PastAfterAdd(sig: string -> Signature, v: HubView, j: Job, now: int)
    ensures var past := AfterAdd(sig, v, j, now).0.past;
            past == v.past || (j.triggerAt <= now && past == Insert(v.past, j))
  {
  }

  lemma PastAfterCancel(sig: string -> Signature, v: HubView, id: string, v': HubView, r: Option<Job>)
    requires CancelStep(sig, v, id, v', r)
    ensures v'.past == v.past || (r.Some? && v'.past == Take(v.past, r.value))
  {
    if sig(id) in v.filter {
      var o :| IsOwner(v, id, o) && CancelAt(sig, v, id, o, v', r);
    }
  }

  lemma PastAfterNext(sig: string -> Signature, v: HubView, pastNow: int, expiryNow: int, readyNow: int,
                      v': HubView, r: Option<Job>)
    requires NextStep(sig, v, pastNow, expiryNow, readyNow, v', r)
    ensures if Ready(v.past, pastNow) then r.Some? && v'.past == Take(v.past, r.value) else v'.past == v.past
  {
  }

  lemma {:induction false} ReachablePastDue(sig: string -> Signature, ss: seq<HubState>, es: seq<Event>, span: int,
                                            i: nat)
    requires RunFromNew(sig, ss, es, span) && i < |ss|
    ensures PastDue(ss[i])
  {
    if i > 0 {
      ReachablePastDue(sig, ss, es, span, i - 1);
      assert Step(sig, ss[i - 1], es[i - 1], ss[i]);
      PastDueStep(sig, ss[i - 1], es[i - 1], ss[i]);
    }
  }

  /** No job is early: whatever Next returns has reached its trigger at the last clock reading of the call. */
  lemma NeverEarly(sig: string -> Signature, s: HubState, e: Event, s': HubState)
    requires Step(sig, s, e, s') && e.NextEvent? && e.result.Some?
    ensures e.result.value.triggerAt <= e.readyNow
    ensures e.result.value in Pending(s.hub)
  {
    var v := s.hub;
    if !Ready(v.past, e.pastNow) {
      var w := Expire(v, e.expiryNow);
      if w.current.None? {
        var b :| Earliest(w.queued, b) && Serve(sig, Promote(w, b), CurrentSpoke, e.readyNow, s'.hub, e.result);
        QueuedPendingSplit(w.queued, b);
      }
    }
  }
}

/** Emptying the hub: repeated calls of Next deliver everything, in order. */
module HubDrain {
  import opened Options
  import opened Temporal
  import opened Jobs
  import opened SpokeModel
  import opened HubModel
  import opened HubInvariants
  import opened HubRuns
  import opened HubOrder

  // ---------- Eventual delivery ----------

  /** A call of Next at a time when every job is due and every spoke has expired. */
  ghost predicate LateNext(v: HubView, e: Event) {
    && e.NextEvent?
    && (forall k <- Pending(v) :: k.triggerAt <= e.pastNow)
    && (v.current.Some? ==> v.current.value.bound.IsExpired(e.expiryNow))
    && forall b <- v.queued :: b.IsExpired(e.expiryNow)
  }

  /** What is left to do: jobs to deliver and spokes to pin. */
  ghost function Work(v: HubView): nat {
    |Pending(v)| + |v.queued|
  }

  /** Every late call makes progress: it delivers a job, or it uses up a waiting spoke. */
  lemma LateNextProgress(sig: string -> Signature, s: HubState, e: Event, s': HubState)
    requires Shaped(s.hub) && Counted(s.hub) && Step(sig, s, e, s')
    requires LateNext(s.hub, e) && Pending(s.hub) != multiset{}
    ensures |Pending(s'.hub)| + (if e.result.Some? then 1 else 0) == |Pending(s.hub)|
    ensures |s'.hub.queued| + (if e.result.None? then 1 else 0) <= |s.hub.queued|
  {
    StepKeeps(sig, s.hub, e, s'.hub);
    assert |Pending(s'.hub) + Loss(e)| == |Pending(s.hub)|;
    if !Ready(s.hub.past, e.pastNow) {
      LatePinned(sig, s.hub, e, s'.hub);
    }
  }

  lemma LatePinned(sig: string -> Signature, v: HubView, e: Event, v': HubView)
    requires LateNext(v, e) && Pending(v) != multiset{} && e.pastNow <= e.readyNow && !Ready(v.past, e.pastNow)
    requires NextFromCurrent(sig, Expire(v, e.expiryNow), e.readyNow, v', e.result)
    ensures |v'.queued| + (if e.result.None? then 1 else 0) <= |v.queued|
  {
    SomethingToServe(v, e);
    SpokeUsed(sig, Expire(v, e.expiryNow), e.readyNow, v', e.result);
  }

  lemma SpokeUsed(sig: string -> Signature, w: HubView, now: int, v': HubView, r: Option<Job>)
    requires NextFromCurrent(sig, w, now, v', r)
    requires if w.current.Some? then Ready(w.current.value, now) else w.queued != map[]
    ensures |v'.queued| + (if r.None? then 1 else 0) <= |w.queued|
  {
    if w.current.None? {
      var b := WhichPinned(sig, w, now, v', r);
      OneSpokeLess(w.queued, b);
    }
  }

  lemma SomethingToServe(v: HubView, e: Event)
    requires LateNext(v, e) && Pending(v) != multiset{} && e.pastNow <= e.readyNow && !Ready(v.past, e.pastNow)
    ensures var w := Expire(v, e.expiryNow);
            if w.current.Some? then Ready(w.current.value, e.readyNow) else w.queued != map[]
  {
    var w := Expire(v, e.expiryNow);
    if w.current.Some? {
      var k :| k in w.current.value.pending;
      assert k in Pending(v);
    } else {
      var k :| k in Pending(v);
      assert k !in v.past.pending;
      LaterMember(v, k);
    }
  }

  lemma OneSpokeLess(queued: map<Bound, SpokeView>, b: Bound)
    requires b in queued
    ensures |queued - {b}| == |queued| - 1
  {
    assert (queued - {b}).Keys == queued.Keys - {b};
  }

  /** Every trigger and every end in the hub lies at or before t. */
  ghost predicate OverBy(v: HubView, t: int) {
    && (forall k <- Pending(v) :: k.triggerAt <= t)
    && (v.current.Some? ==> v.current.value.bound.end <= t)
    && forall b <- v.queued :: b.end <= t
  }

  /** Without an add there are no new jobs and no new spokes. */
  lemma StepKeepsOver(sig: string -> Signature, s: HubState, e: Event, s': HubState, t: int)
    requires Shaped(s.hub) && Counted(s.hub) && Step(sig, s, e, s') && !e.AddEvent? && OverBy(s.hub, t)
    ensures OverBy(s'.hub, t)
  {
    StepKeeps(sig, s.hub, e, s'.hub);
    forall k <- Pending(s'.hub)
      ensures k.triggerAt <= t
    {
      assert k in Pending(s'.hub) + Loss(e);
      assert Pending(s.hub) + multiset{} == Pending(s.hub);
    }
    StepBounds(sig, s.hub, e, s'.hub);
  }

  lemma StepBounds(sig: string -> Signature, v: HubView, e: Event, v': HubView)
    requires Shaped(v) && HubStep(sig, v, e, v') && !e.AddEvent?
    ensures v'.queued.Keys <= v.queued.Keys
    ensures v'.current.Some? ==>
              || (v.current.Some? && v'.current.value.bound == v.current.value.bound)
              || v'.current.value.bound in v.queued
  {
    if e.NextEvent? {
      NextBounds(sig, v, e.pastNow, e.expiryNow, e.readyNow, v', e.result);
    } else {
      CancelKeepsBounds(sig, v, e.id, v', e.result);
    }
  }

  lemma NextBounds(sig: string -> Signature, v: HubView, pastNow: int, expiryNow: int, readyNow: int,
                   v': HubView, r: Option<Job>)
    requires Shaped(v) && NextStep(sig, v, pastNow, expiryNow, readyNow, v', r)
    ensures v'.queued.Keys <= v.queued.Keys
    ensures v'.current.Some? ==>
              || (v.current.Some? && v'.current.value.bound == v.current.value.bound)
              || v'.current.value.bound in v.queued
  {
    if !Ready(v.past, pastNow) {
      var w := Expire(v, expiryNow);
      if w.current.None? && w.queued != map[] {
        var b := WhichPinned(sig, w, readyNow, v', r);
      }
    }
  }

  ghost predicate NoAdds(es: seq<Event>) {
    forall i :: 0 <= i < |es| ==> !es[i].AddEvent?
  }

  /** One for a call of Next. */
  function IsNext(e: Event): nat {
    if e.NextEvent? then 1 else 0
  }

  /** One for a call of Next that answers nil. */
  function IsNil(e: Event): nat {
    if e.NextEvent? && e.result.None? then 1 else 0
  }

  /** How many calls of Next there are, and how many of them answer nil. */
  ghost function Nexts(es: seq<Event>): (nat, nat) {
    if es == [] then (0, 0)
    else
      var (nexts, nils) := Nexts(es[..|es| - 1]);
      (nexts + IsNext(es[|es| - 1]), nils + IsNil(es[|es| - 1]))
  }

  /** Everything in the hub is over. */
  ghost predicate Over(s: HubState, t: int) {
    Shaped(s.hub) && Counted(s.hub) && OverBy(s.hub, t) && t < s.clock
  }

  lemma {:induction false} StaysOver(sig: string -> Signature, ss: seq<HubState>, es: seq<Event>, t: int, i: nat)
    requires Run(sig, ss, es) && NoAdds(es) && i < |ss| && Over(ss[0], t)
    ensures Over(ss[i], t)
  {
    if i > 0 {
      var k := i - 1;
      StaysOver(sig, ss, es, t, k);
      assert Step(sig, ss[k], es[k], ss[k + 1]);
      OverStep(sig, ss[k], es[k], ss[i], t);
    }
  }

  lemma OverStep(sig: string -> Signature, s: HubState, e: Event, s': HubState, t: int)
    requires Over(s, t) && Step(sig, s, e, s') && !e.AddEvent?
    ensures Over(s', t)
  {
    StepKeeps(sig, s.hub, e, s'.hub);
    StepKeepsOver(sig, s, e, s', t);
  }

  /** The account of some calls: out jobs are handed out, among them one for each Next that does not answer nil; and as
      long as jobs are left, each nil has cost a waiting spoke. */
  ghost predicate Progress(v: HubView, nexts: nat, nils: nat, out: nat, v': HubView) {
    && |Pending(v')| + out == |Pending(v)| && nexts <= nils + out
    && (Pending(v') != multiset{} ==> Pending(v) != multiset{} && |v'.queued| + nils <= |v.queued|)
  }

  lemma ProgressAt(sig: string -> Signature, ss: seq<HubState>, es: seq<Event>, t: int, i: nat)
    requires Run(sig, ss, es) && NoAdds(es) && i < |es| && Over(ss[0], t)
    ensures Progress(ss[i].hub, IsNext(es[i]), IsNil(es[i]), |Loss(es[i])|, ss[i + 1].hub)
  {
    StaysOver(sig, ss, es, t, i);
    assert Step(sig, ss[i], es[i], ss[i + 1]);
    if es[i].NextEvent? {
      DrainStep(sig, ss[i], es[i], ss[i + 1], t);
    } else {
      CancelProgress(sig, ss[i].hub, es[i], ss[i + 1].hub);
    }
  }

  lemma CancelProgress(sig: string -> Signature, v: HubView, e: Event, v': HubView)
    requires Shaped(v) && Counted(v) && HubStep(sig, v, e, v') && e.CancelEvent?
    ensures Progress(v, 0, 0, |Loss(e)|, v')
  {
    StepKeeps(sig, v, e, v');
    MovesCount(v, v', Gain(e), Loss(e));
    CancelKeepsBounds(sig, v, e.id, v', e.result);
    assert |v'.queued| == |v'.queued.Keys| && |v.queued| == |v.queued.Keys|;
    if Pending(v') != multiset{} {
      assert |Pending(v')| > 0;
    }
  }

  /** The account of the operations es, which lead from v to v'. */
  ghost predicate ProgressBy(v: HubView, es: seq<Event>, v': HubView) {
    Progress(v, Nexts(es).0, Nexts(es).1, |Losses(es)|, v')
  }

  /** Once everything is over, and as long as jobs are left, the nil answers of Next are at most as many as there were
      waiting spokes, and its other answers are deliveries. Jobs may be cancelled in between. */
  lemma {:induction false} DrainProgress(sig: string -> Signature, ss: seq<HubState>, es: seq<Event>, t: int, i: nat)
    requires Run(sig, ss, es) && NoAdds(es) && i < |ss| && Over(ss[0], t)
    ensures ProgressBy(ss[0].hub, es[..i], ss[i].hub)
  {
    if i == 0 {
      NoProgress(ss[0].hub, es);
    } else {
      var k := i - 1;
      DrainProgress(sig, ss, es, t, k);
      ProgressAt(sig, ss, es, t, k);
      ProgressNext(ss[0].hub, es, k, ss[k].hub, ss[i].hub);
    }
  }

  lemma NoProgress(v: HubView, es: seq<Event>)
    ensures ProgressBy(v, es[..0], v)
  {
  }

  lemma ProgressNext(u: HubView, es: seq<Event>, i: nat, v: HubView, w: HubView)
    requires i < |es| && ProgressBy(u, es[..i], v)
    requires Progress(v, IsNext(es[i]), IsNil(es[i]), |Loss(es[i])|, w)
    ensures ProgressBy(u, es[..i + 1], w)
  {
    CountNext(es, i);
    AddProgress(u, Nexts(es[..i]).0, Nexts(es[..i]).1, |Losses(es[..i])|, v,
                IsNext(es[i]), IsNil(es[i]), |Loss(es[i])|, w);
  }

  lemma CountNext(es: seq<Event>, i: nat)
    requires i < |es|
    ensures Nexts(es[..i + 1]) == (Nexts(es[..i]).0 + IsNext(es[i]), Nexts(es[..i]).1 + IsNil(es[i]))
    ensures |Losses(es[..i + 1])| == |Losses(es[..i])| + |Loss(es[i])|
  {
    assert es[..i + 1][..i] == es[..i];
  }

  /** Accounts of calls that follow one another add up. */
  lemma AddProgress(u: HubView, a: nat, b: nat, c: nat, v: HubView, x: nat, y: nat, z: nat, w: HubView)
    requires Progress(u, a, b, c, v) && Progress(v, x, y, z, w)
    ensures Progress(u, a + x, b + y, c + z, w)
  {
  }

  lemma DrainStep(sig: string -> Signature, s: HubState, e: Event, s': HubState, t: int)
    requires Over(s, t) && Step(sig, s, e, s') && e.NextEvent?
    ensures Progress(s.hub, 1, IsNil(e), |Loss(e)|, s'.hub)
  {
    StepKeeps(sig, s.hub, e, s'.hub);
    MovesCount(s.hub, s'.hub, Gain(e), Loss(e));
    if Pending(s'.hub) != multiset{} {
      assert |Pending(s'.hub)| > 0;
      OverIsLate(s, e, t);
      LateNextProgress(sig, s, e, s');
    }
  }

  lemma OverIsLate(s: HubState, e: Event, t: int)
    requires Over(s, t) && e.NextEvent? && s.clock <= e.pastNow <= e.expiryNow
    ensures LateNext(s.hub, e)
  {
  }

  /** Eventual delivery: once every trigger and every spoke is over, and without further adds, as many calls of Next as
      there are jobs and waiting spokes empty the hub, whatever is cancelled in between. Each job has then been handed
      out once. */
  lemma EventualDelivery(sig: string -> Signature, ss: seq<HubState>, es: seq<Event>, t: int)
    requires Run(sig, ss, es) && NoAdds(es) && Over(ss[0], t)
    requires Nexts(es).0 >= Work(ss[0].hub)
    ensures Pending(ss[|es|].hub) == multiset{}
    ensures Losses(es) == Pending(ss[0].hub)
  {
    DrainProgress(sig, ss, es, t, |es|);
    OutOfPending(sig, ss, es, t, |es|);
    assert es[..|es|] == es;
  }

  lemma {:induction false} OutOfPending(sig: string -> Signature, ss: seq<HubState>, es: seq<Event>, t: int, i: nat)
    requires Run(sig, ss, es) && NoAdds(es) && i < |ss| && Over(ss[0], t)
    ensures Losses(es[..i]) + Pending(ss[i].hub) == Pending(ss[0].hub)
  {
    if i > 0 {
      var k := i - 1;
      OutOfPending(sig, ss, es, t, k);
      StaysOver(sig, ss, es, t, k);
      StepAt(sig, ss, es, k);
      OutStep(sig, ss[k].hub, es[k], ss[i].hub);
      OutNext(es, k, Pending(ss[0].hub), Pending(ss[k].hub), Pending(ss[i].hub));
    }
  }

  lemma OutNext(es: seq<Event>, i: nat, all: multiset<Job>, p: multiset<Job>, p': multiset<Job>)
    requires i < |es| && Losses(es[..i]) + p == all && p == Loss(es[i]) + p'
    ensures Losses(es[..i + 1]) + p' == all
  {
    AccountStep(es, i + 1);
    Regroup(Losses(es[..i]), Loss(es[i]), p');
  }

  lemma OutStep(sig: string -> Signature, v: HubView, e: Event, v': HubView)
    requires Shaped(v) && Counted(v) && HubStep(sig, v, e, v') && !e.AddEvent?
    ensures Pending(v) == Loss(e) + Pending(v')
  {
    StepKeeps(sig, v, e, v');
    assert Pending(v) + multiset{} == Pending(v);
  }

  // ---------- Draining sorts ----------

  ghost predicate OnlyNext(es: seq<Event>) {
    forall i :: 0 <= i < |es| ==> es[i].NextEvent?
  }

  /** What a call delivers. */
  function Given(e: Event): seq<Job>
    requires e.NextEvent?
  {
    if e.result.Some? then [e.result.value] else []
  }

  /** The jobs delivered from call i on, in order. */
  ghost function Delivered(es: seq<Event>, i: nat): seq<Job>
    requires OnlyNext(es) && i <= |es|
    decreases |es| - i
  {
    if i == |es| then [] else Given(es[i]) + Delivered(es, i + 1)
  }

  ghost predicate Sorted(js: seq<Job>) {
    forall m, n :: 0 <= m < n < |js| ==> js[m].triggerAt <= js[n].triggerAt
  }

  /** The hub is ready to hand out its jobs in order. */
  ghost predicate InOrder(s: HubState) {
    Shaped(s.hub) && Counted(s.hub) && CurrentFirst(s.hub) && PastDue(s)
  }

  lemma NextKeepsInOrder(sig: string -> Signature, s: HubState, e: Event, s': HubState)
    requires InOrder(s) && Step(sig, s, e, s') && e.NextEvent?
    ensures InOrder(s')
  {
    StepKeeps(sig, s.hub, e, s'.hub);
    CurrentFirstIff(sig, s, e, s');
    PastDueStep(sig, s, e, s');
  }

  /** What one call takes, and from which of the two streams. */
  ghost predicate Takes(v: HubView, e: Event, v': HubView)
    requires e.NextEvent?
  {
    if v.past.pending != multiset{} then
      && e.result.Some? && Head(v.past, e.result.value)
      && v'.past.pending == v.past.pending - multiset{e.result.value}
      && LaterPending(v') == LaterPending(v)
    else
      && v'.past.pending == multiset{}
      && LaterPending(v') == LaterPending(v) - Loss(e)
      && (e.result.Some? ==> LeastLater(v, e.result.value) && e.result.value in LaterPending(v))
  }

  lemma NextTakes(sig: string -> Signature, s: HubState, e: Event, s': HubState)
    requires InOrder(s) && Step(sig, s, e, s') && e.NextEvent?
    ensures Takes(s.hub, e, s'.hub)
  {
    if k :| k in s.hub.past.pending {
      assert k.triggerAt <= e.pastNow;
    } else {
      StepKeeps(sig, s.hub, e, s'.hub);
      PastAfterNext(sig, s.hub, e.pastNow, e.expiryNow, e.readyNow, s'.hub, e.result);
      EmptyPast(s.hub, s'.hub, e);
      if e.result.Some? {
        NextInOrder(sig, s, e, s');
      }
    }
  }

  lemma EmptyPast(v: HubView, v': HubView, e: Event)
    requires v.past.pending == v'.past.pending == multiset{} && !e.AddEvent?
    requires Pending(v') + Loss(e) == Pending(v) + Gain(e)
    ensures LaterPending(v') == LaterPending(v) - Loss(e)
    ensures e.result.Some? ==> e.result.value in LaterPending(v)
  {
    assert Pending(v') == LaterPending(v') && Pending(v) == LaterPending(v);
    assert LaterPending(v') + Loss(e) == LaterPending(v);
  }

  ghost predicate Least(j: Job, all: multiset<Job>) {
    j in all && forall k <- all :: j.triggerAt <= k.triggerAt
  }

  /** The sequence js is a sorting of the multiset all. */
  ghost predicate Sorting(js: seq<Job>, all: multiset<Job>) {
    multiset(js) == all && Sorted(js)
  }

  lemma ConsLeast(j: Job, js: seq<Job>, all: multiset<Job>)
    requires Least(j, all) && Sorting(js, all - multiset{j})
    ensures Sorting([j] + js, all)
  {
    forall n | 0 <= n < |js|
      ensures j.triggerAt <= js[n].triggerAt
    {
      assert js[n] in multiset(js);
    }
  }

  /** The jobs come in two groups, each of them sorted. */
  ghost predicate InGroups(js: seq<Job>, past: multiset<Job>, later: multiset<Job>) {
    |past| <= |js| && Sorting(js[..|past|], past) && Sorting(js[|past|..], later)
  }

  lemma ConsPast(j: Job, js: seq<Job>, past: multiset<Job>, later: multiset<Job>)
    requires Least(j, past) && InGroups(js, past - multiset{j}, later)
    ensures InGroups([j] + js, past, later)
  {
    var n := |past|;
    assert |past - multiset{j}| == n - 1;
    assert ([j] + js)[..n] == [j] + js[..n - 1];
    assert ([j] + js)[n..] == js[n - 1..];
    ConsLeast(j, js[..n - 1], past);
  }

  lemma ConsLater(j: Job, js: seq<Job>, later: multiset<Job>)
    requires Least(j, later) && InGroups(js, multiset{}, later - multiset{j})
    ensures InGroups([j] + js, multiset{}, later)
  {
    var ks := [j] + js;
    assert js[0..] == js && ks[0..] == ks;
    ConsLeast(j, js, later);
  }

  lemma DeliveredNext(es: seq<Event>, i: nat)
    requires OnlyNext(es) && i < |es|
    ensures Delivered(es, i) == Given(es[i]) + Delivered(es, i + 1)
  {
  }

  lemma NothingLeft(v: HubView)
    requires Pending(v) == multiset{}
    ensures InGroups([], v.past.pending, LaterPending(v))
  {
  }

  /** One call, before calls that deliver in groups. */
  lemma DeliverOne(sig: string -> Signature, s: HubState, e: Event, s': HubState, js: seq<Job>)
    requires InOrder(s) && Step(sig, s, e, s') && e.NextEvent?
    requires InGroups(js, s'.hub.past.pending, LaterPending(s'.hub))
    ensures InGroups(Given(e) + js, s.hub.past.pending, LaterPending(s.hub))
  {
    NextTakes(sig, s, e, s');
    PrependTaken(s.hub, e, s'.hub, js);
  }

  /** From call i on, the jobs of the past spoke are delivered first and then all others, each group complete and in the
      order of triggers. */
  ghost predicate DeliversSorted(ss: seq<HubState>, es: seq<Event>, i: nat)
    requires |ss| == |es| + 1 && OnlyNext(es) && i <= |es|
  {
    InGroups(Delivered(es, i), ss[i].hub.past.pending, LaterPending(ss[i].hub))
  }

  lemma DeliversAtEnd(ss: seq<HubState>, es: seq<Event>)
    requires |ss| == |es| + 1 && OnlyNext(es) && Pending(ss[|es|].hub) == multiset{}
    ensures DeliversSorted(ss, es, |es|)
  {
    NothingLeft(ss[|es|].hub);
  }

  /** Draining is sorting: calls of Next that empty the hub deliver first the jobs of the past spoke and then all
      other jobs, each group complete and in the order of triggers. */
  lemma DrainSorts(sig: string -> Signature, ss: seq<HubState>, es: seq<Event>, i: nat)
    requires Run(sig, ss, es) && OnlyNext(es) && i <= |es| && InOrder(ss[i])
    requires Pending(ss[|es|].hub) == multiset{}
    ensures DeliversSorted(ss, es, i)
  {
    DeliversAtEnd(ss, es);
    forall k: nat | i <= k < |es|
      ensures SortedBefore(ss, es, k)
    {
      StaysInOrder(sig, ss, es, i, k);
      DeliverAt(sig, ss, es, k);
    }
    SortedFrom(ss, es, i);
  }

  /** If what is delivered after call i is sorted, then with it, too. */
  ghost predicate SortedBefore(ss: seq<HubState>, es: seq<Event>, i: nat)
    requires |ss| == |es| + 1 && OnlyNext(es) && i < |es|
  {
    DeliversSorted(ss, es, i + 1) ==> DeliversSorted(ss, es, i)
  }

  lemma {:induction false} SortedFrom(ss: seq<HubState>, es: seq<Event>, i: nat)
    requires |ss| == |es| + 1 && OnlyNext(es) && i <= |es| && DeliversSorted(ss, es, |es|)
    requires forall k: nat :: i <= k < |es| ==> SortedBefore(ss, es, k)
    ensures DeliversSorted(ss, es, i)
    decreases |es| - i
  {
    if i < |es| {
      SortedFrom(ss, es, i + 1);
      assert SortedBefore(ss, es, i);
    }
  }

  lemma {:induction false} StaysInOrder(sig: string -> Signature, ss: seq<HubState>, es: seq<Event>, i: nat, k: nat)
    requires Run(sig, ss, es) && OnlyNext(es) && i <= k <= |es| && InOrder(ss[i])
    ensures InOrder(ss[k])
  {
    if i < k {
      var n := k - 1;
      StaysInOrder(sig, ss, es, i, n);
      StepAt(sig, ss, es, n);
      NextKeepsInOrder(sig, ss[n], es[n], ss[k]);
    }
  }

  lemma DeliverAt(sig: string -> Signature, ss: seq<HubState>, es: seq<Event>, i: nat)
    requires Run(sig, ss, es) && OnlyNext(es) && i < |es| && InOrder(ss[i])
    ensures SortedBefore(ss, es, i)
  {
    if DeliversSorted(ss, es, i + 1) {
      StepAt(sig, ss, es, i);
      DeliverOne(sig, ss[i], es[i], ss[i + 1], Delivered(es, i + 1));
      DeliveredNext(es, i);
    }
  }

  lemma PrependTaken(v: HubView, e: Event, v': HubView, js: seq<Job>)
    requires e.NextEvent? && Takes(v, e, v') && InGroups(js, v'.past.pending, LaterPending(v'))
    ensures InGroups(Given(e) + js, v.past.pending, LaterPending(v))
  {
    if v.past.pending != multiset{} {
      ConsPast(e.result.value, js, v.past.pending, LaterPending(v));
    } else if e.result.Some? {
      ConsLater(e.result.value, js, LaterPending(v));
    } else {
      assert [] + js == js && LaterPending(v) - multiset{} == LaterPending(v);
    }
  }
}

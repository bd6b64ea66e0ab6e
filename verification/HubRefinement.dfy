/** Runs of the hub are runs of a flat map, as long as the filter has no false negatives. */
module HubRefinement {
  import opened Options
  import opened Temporal
  import opened Jobs
  import opened SpokeModel
  import opened Stats
  import opened HubModel
  import opened HubInvariants
  import opened HubFilter
  import opened HubFlat
  import opened HubCover

  lemma NewIsSound(sig: string -> Signature, span: int, now: int)
    ensures Sound(sig, NewHub(span, now)) && Flat(NewHub(span, now)) == map[]
  {
    var v := NewHub(span, now);
    assert v.past.pending == multiset{} && Pending(v) == multiset{};
    assert forall o :: HasSpoke(v, o) ==> o == PastSpoke;
    assert IsFlat(v, map[]);
    FlatUnique(v, map[]);
  }

  lemma FlatSize(sig: string -> Signature, s: HubState, e: Event, s': HubState)
    requires Usable(sig, s.hub) && Step(sig, s, e, s')
    requires |Flat(s.hub)| == |Pending(s.hub)|
    ensures |Flat(s'.hub)| == |Pending(s'.hub)|
  {
    StepKeeps(sig, s.hub, e, s'.hub);
    SumSize(Pending(s.hub), Gain(e), Pending(s'.hub), Loss(e));
    StepIsFlat(sig, s, e, s');
    SizeStep(Flat(s.hub), e, Flat(s'.hub));
  }

  lemma SumSize(a: multiset<Job>, b: multiset<Job>, c: multiset<Job>, d: multiset<Job>)
    requires c + d == a + b
    ensures |c| + |d| == |a| + |b|
  {
    assert |c + d| == |a + b|;
  }

  lemma SizeStep(m: map<string, Job>, e: Event, m': map<string, Job>)
    requires FlatStep(m, e, m')
    ensures |m'| == |m| + |Gain(e)| - |Loss(e)|
  {
    match e
    case AddEvent(j, now, added) =>
      AddSize(m, j);
    case CancelEvent(id, r) =>
      RemoveSize(m, id);
    case NextEvent(pastNow, expiryNow, readyNow, r) =>
      if r.Some? {
        RemoveSize(m, r.value.id);
      }
  }

  lemma AddSize(m: map<string, Job>, j: Job)
    ensures |m[j.id := j]| == |m| + if j.id in m then 0 else 1
  {
    assert m[j.id := j].Keys == m.Keys + {j.id};
  }

  lemma RemoveSize(m: map<string, Job>, id: string)
    ensures |m - {id}| == |m| - if id in m then 1 else 0
  {
    assert (m - {id}).Keys == m.Keys - {id};
  }

  /** No operation of the run leaves a false negative before step i. */
  ghost predicate NoneUncovers(sig: string -> Signature, ss: seq<HubState>, es: seq<Event>, i: nat)
    requires i <= |es| <= |ss|
  {
    forall k :: 0 <= k < i ==> !Uncovers(sig, ss[k].hub, es[k])
  }

  /** The hub is a scheduler over a flat map: from a new hub on, each operation does to the flat map what its answer
      says, and the job counter is the size of that map, as long as no operation leaves a false negative in the
      filter. The first one that does still acts on the flat map, and the hub is usable up to then. */
  lemma {:induction false} RunIsFlat(sig: string -> Signature, ss: seq<HubState>, es: seq<Event>, span: int, i: nat)
    requires RunFromNew(sig, ss, es, span) && i <= |es| && NoneUncovers(sig, ss, es, i)
    ensures Usable(sig, ss[i].hub)
    ensures ss[i].hub.stats.currentJobs == |Flat(ss[i].hub)|
    ensures i < |es| ==> FlatStep(Flat(ss[i].hub), es[i], Flat(ss[i + 1].hub))
    ensures i < |es| ==> (Usable(sig, ss[i + 1].hub) <==> !Uncovers(sig, ss[i].hub, es[i]))
  {
    if i == 0 {
      NewIsSound(sig, span, ss[0].clock);
      SoundIsUsable(sig, ss[0].hub);
    } else {
      var k := i - 1;
      RunIsFlat(sig, ss, es, span, k);
      assert Step(sig, ss[k], es[k], ss[i]);
      assert !Uncovers(sig, ss[k].hub, es[k]);
      FlatSize(sig, ss[k], es[k], ss[i]);
    }
    if i < |es| {
      assert Step(sig, ss[i], es[i], ss[i + 1]);
      StepIsFlat(sig, ss[i], es[i], ss[i + 1]);
      UsableIff(sig, ss[i], es[i], ss[i + 1]);
    }
  }

  /** Without falsely positive cancels no operation leaves a false negative. */
  lemma {:induction false} TrueCancelsCover(sig: string -> Signature, ss: seq<HubState>, es: seq<Event>, span: int,
                                            i: nat)
    requires RunFromNew(sig, ss, es, span) && i <= |es|
    requires forall k :: 0 <= k < i ==> !FalsePositive(sig, ss[k].hub, es[k])
    ensures Sound(sig, ss[i].hub) && NoneUncovers(sig, ss, es, i)
  {
    if i == 0 {
      NewIsSound(sig, span, ss[0].clock);
    } else {
      var k := i - 1;
      TrueCancelsCover(sig, ss, es, span, k);
      assert Step(sig, ss[k], es[k], ss[i]);
      assert !FalsePositive(sig, ss[k].hub, es[k]);
      SoundIff(sig, ss[k], es[k], ss[i]);
      SoundUncoversIff(sig, ss[k], es[k], ss[i]);
    }
  }

  /** The operation hands out a job of this id: it delivers or cancels it. */
  predicate HandsOut(e: Event, id: string) {
    !e.AddEvent? && e.result.Some? && e.result.value.id == id
  }

  predicate TakesIn(e: Event, id: string) {
    e.AddEvent? && e.added == Accepted && e.job.id == id
  }

  /** No job is delivered twice, nor after it has been cancelled: once a job is handed out in step i, nothing is handed
      out under its id, unless the id is added anew. */
  lemma {:induction false} GoneStaysGone(sig: string -> Signature, ss: seq<HubState>, es: seq<Event>, span: int,
                                         i: nat, k: nat, id: string)
    requires RunFromNew(sig, ss, es, span) && i < k <= |es| && NoneUncovers(sig, ss, es, k)
    requires HandsOut(es[i], id) && forall n :: i < n < k ==> !TakesIn(es[n], id)
    ensures id !in Flat(ss[k].hub)
    ensures k < |es| ==> !HandsOut(es[k], id)
  {
    var n := k - 1;
    if i < n {
      GoneStaysGone(sig, ss, es, span, i, n, id);
    }
    RunIsFlat(sig, ss, es, span, n);
    FlatStepGone(Flat(ss[n].hub), es[n], Flat(ss[k].hub), id);
    if k < |es| {
      RunIsFlat(sig, ss, es, span, k);
      FlatStepMissing(Flat(ss[k].hub), es[k], Flat(ss[k + 1].hub), id);
    }
  }

  lemma FlatStepGone(m: map<string, Job>, e: Event, m': map<string, Job>, id: string)
    requires FlatStep(m, e, m') && (HandsOut(e, id) || (id !in m && !TakesIn(e, id)))
    ensures id !in m'
  {
  }

  lemma FlatStepMissing(m: map<string, Job>, e: Event, m': map<string, Job>, id: string)
    requires FlatStep(m, e, m') && id !in m
    ensures !HandsOut(e, id)
  {
  }

  /** Without signature collisions no cancel of a sound hub is falsely positive. */
  lemma NoCollisions(sig: string -> Signature, v: HubView, e: Event)
    requires Sound(sig, v) && e.CancelEvent?
    requires forall j <- Pending(v) :: sig(j.id) == sig(e.id) ==> j.id == e.id
    ensures !FalsePositive(sig, v, e)
  {
    SignaturesMember(sig, Pending(v), sig(e.id));
    if sig(e.id) in v.filter {
      var j :| j in Pending(v) && sig(j.id) == sig(e.id);
      PendingIsFlat(v, j);
      OwnedIsFlat(v, e.id);
    }
  }

  /** The hub never rejects a new job: on a usable hub a job is accepted if and only if its id is not there yet, and
      its trigger lies ahead and the span is positive, or lies behind and within the past spoke. */
  lemma AcceptedIff(sig: string -> Signature, v: HubView, j: Job, now: int)
    requires Usable(sig, v)
    ensures AfterAdd(sig, v, j, now).1 == Accepted <==>
            j.id !in Flat(v) && if j.triggerAt <= now then v.past.bound.ContainsTime(j.triggerAt) else v.span > 0
  {
    OwnedPasses(sig, v, j.id);
    PlaceAccepts(v, j, now);
  }

  // ---------- The filter only saves time ----------

  /** Adding, with a search through all spokes in place of the filter. */
  ghost function AddByScan(sig: string -> Signature, v: HubView, j: Job, now: int): (HubView, AddResult) {
    if Owned(v, j.id) then
      (v, Duplicate)
    else
      match Place(v, j, now)
      case None => (v, OutOfBounds)
      case Some(w) => (Admit(sig, w, j.id), Accepted)
  }

  /** Cancelling, with a search through all spokes in place of the filter. */
  ghost predicate CancelByScan(sig: string -> Signature, v: HubView, id: string, v': HubView, r: Option<Job>) {
    if !Owned(v, id) then
      v' == v && r == None
    else
      exists o :: IsOwner(v, id, o) && CancelAt(sig, v, id, o, v', r)
  }

  /** On a usable hub the filter changes no answer. It changes no state either, unless a cancel is falsely positive. */
  lemma FilterIsTransparent(sig: string -> Signature, v: HubView, j: Job, now: int, id: string, v': HubView,
                            r: Option<Job>)
    requires Usable(sig, v)
    ensures AfterAdd(sig, v, j, now) == AddByScan(sig, v, j, now)
    ensures if FalsePositive(sig, v, CancelEvent(id, r)) then
              CancelStep(sig, v, id, v', r) <==> CancelByScan(sig, v, id, v'.(filter := v.filter), r)
                                                 && v'.filter == v.filter - multiset{sig(id)}
            else
              CancelStep(sig, v, id, v', r) <==> CancelByScan(sig, v, id, v', r)
  {
    OwnedPasses(sig, v, j.id);
    OwnedPasses(sig, v, id);
    if FalsePositive(sig, v, CancelEvent(id, r)) {
      FalselyCancelled(sig, v, id, v', r);
    }
  }

  lemma FalselyCancelled(sig: string -> Signature, v: HubView, id: string, v': HubView, r: Option<Job>)
    requires sig(id) in v.filter && !Owned(v, id)
    ensures CancelStep(sig, v, id, v', r) <==> v' == v.(filter := v.filter - multiset{sig(id)}) && r == None
  {
    assert IsOwner(v, id, Nobody);
    assert forall o :: IsOwner(v, id, o) ==> o == Nobody;
  }

  /** A filter that tells no ids apart. */
  const BLIND: string -> Signature := id => 7

  /** A hub of span 10, made at 0, with jobs of the bucket from 20 to 30. */
  function Bucket20(pending: multiset<Job>, index: map<string, Job>, filter: multiset<Signature>): HubView {
    NewHub(10, 0).(
      queued := map[Bound(20, 30) := SpokeView(Bound(20, 30), pending, index)],
      filter := filter,
      stats := Snapshot(|pending|, 0, 1))
  }

  lemma FirstAdd(a: Job)
    requires a.triggerAt == 25
    ensures AfterAdd(BLIND, NewHub(10, 0), a, 1) == (Bucket20(multiset{a}, map[a.id := a], multiset{7}), Accepted)
  {
    var b := Bound(20, 30);
    assert a.AsBound(10) == b;
    assert Insert(EmptySpoke(b), a) == SpokeView(b, multiset{a}, map[a.id := a]);
    assert NewHub(10, 0).filter + multiset{BLIND(a.id)} == multiset{7};
    assert NewHub(10, 0).queued[b := Insert(EmptySpoke(b), a)] == map[b := SpokeView(b, multiset{a}, map[a.id := a])];
  }

  lemma BlindCancel(a: Job, b: string)
    requires a.triggerAt == 25 && b != a.id
    ensures var v1 := Bucket20(multiset{a}, map[a.id := a], multiset{7});
            var v2 := Bucket20(multiset{a}, map[a.id := a], multiset{});
            CancelStep(BLIND, v1, b, v2, None) && FalsePositive(BLIND, v1, CancelEvent(b, None))
  {
    var v1 := Bucket20(multiset{a}, map[a.id := a], multiset{7});
    assert IsOwner(v1, b, Nobody);
    assert multiset{7} - multiset{7} == multiset{};
    assert CancelAt(BLIND, v1, b, Nobody, Bucket20(multiset{a}, map[a.id := a], multiset{}), None);
  }

  lemma SecondAdd(a: Job)
    requires a.triggerAt == 25
    ensures AfterAdd(BLIND, Bucket20(multiset{a}, map[a.id := a], multiset{}), a, 3)
            == (Bucket20(multiset{a, a}, map[a.id := a], multiset{7}), Accepted)
  {
    var b := Bound(20, 30);
    var v := Bucket20(multiset{a}, map[a.id := a], multiset{});
    assert a.AsBound(10) == b;
    assert multiset{a} + multiset{a} == multiset{a, a};
    assert Insert(v.queued[b], a) == SpokeView(b, multiset{a, a}, map[a.id := a]);
    assert v.filter + multiset{BLIND(a.id)} == multiset{7};
    assert v.queued[b := Insert(v.queued[b], a)] == map[b := SpokeView(b, multiset{a, a}, map[a.id := a])];
  }

  /** A run that goes wrong: with colliding signatures, add a, cancel the unknown b, and add a once more. The second
      add is accepted, so that a is queued twice. */
  lemma CollisionAdmitsDuplicate(a: Job, b: string)
    requires a.triggerAt == 25 && b != a.id
    ensures var (v1, r1) := AfterAdd(BLIND, NewHub(10, 0), a, 1);
            exists v2 ::
              && CancelStep(BLIND, v1, b, v2, None)
              && var (v3, r3) := AfterAdd(BLIND, v2, a, 3);
                 r1 == Accepted && r3 == Accepted && Pending(v3)[a] == 2
  {
    FirstAdd(a);
    BlindCancel(a, b);
    SecondAdd(a);
    var v3 := Bucket20(multiset{a, a}, map[a.id := a], multiset{7});
    QueuedPendingSplit(v3.queued, Bound(20, 30));
    assert v3.queued - {Bound(20, 30)} == map[];
  }
}

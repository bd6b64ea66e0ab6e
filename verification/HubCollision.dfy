/** A run in which colliding signatures leave a live job unprotected, by a cancel that is no false positive. */
module HubCollision {
  import opened Options
  import opened Jobs
  import opened HubModel
  import opened HubRuns
  import opened HubFilter
  import opened HubCover
  import opened HubOrder
  import opened HubNil

  /** Two jobs and a stranger share a signature. */
  ghost predicate Collide(sig: string -> Signature, early: Job, late: Job, stranger: string) {
    && early.triggerAt == 15 && late.triggerAt == 25
    && early.id != late.id && stranger != early.id && stranger != late.id
    && sig(early.id) == sig(late.id) == sig(stranger)
  }

  /** Both jobs wait in v, each in a spoke of its own, and the filter has n entries of their signature. */
  ghost predicate BothWait(sig: string -> Signature, early: Job, late: Job, v: HubView, n: nat) {
    && v.current.None? && v.past.index == map[] && v.queued.Keys == {BUCKET10, BUCKET20}
    && v.queued[BUCKET10] == Filled(BUCKET10, early) && v.queued[BUCKET20] == Filled(BUCKET20, late)
    && v.filter == multiset{}[sig(late.id) := n]
  }

  lemma TwoWait(sig: string -> Signature, early: Job, late: Job, stranger: string)
    requires Collide(sig, early, late, stranger)
    ensures BothWait(sig, early, late, TwoWaiting(sig, early, late), 2)
  {
  }

  /** Cancelling the stranger passes the filter and takes one of two entries out; no job is unprotected. */
  lemma CancelStranger(sig: string -> Signature, early: Job, late: Job, stranger: string, v: HubView)
    returns (w: HubView, e: Event)
    requires Collide(sig, early, late, stranger) && BothWait(sig, early, late, v, 2)
    ensures Run(sig, [HubState(v, 1), HubState(w, 1)], [e]) && e == CancelEvent(stranger, None)
    ensures FalsePositive(sig, v, e) && !Uncovers(sig, v, e) && BothWait(sig, early, late, w, 1)
  {
    e, w := CancelEvent(stranger, None), v.(filter := v.filter - multiset{sig(stranger)});
    assert IsOwner(v, stranger, Nobody);
    assert CancelAt(sig, v, stranger, Nobody, w, None);
    OneStep(sig, HubState(v, 1), e, HubState(w, 1));
  }

  /** Cancelling the first job takes out the last entry. */
  lemma CancelFirst(sig: string -> Signature, early: Job, late: Job, stranger: string, v: HubView)
    returns (w: HubView, e: Event)
    requires Collide(sig, early, late, stranger) && BothWait(sig, early, late, v, 1)
    ensures Run(sig, [HubState(v, 1), HubState(w, 1)], [e]) && e == CancelEvent(early.id, Some(early))
    ensures !FalsePositive(sig, v, e) && Uncovers(sig, v, e) && w == Emptied(sig, v, BUCKET10, early)
  {
    e, w := CancelEvent(early.id, Some(early)), Emptied(sig, v, BUCKET10, early);
    assert early.id in v.queued[BUCKET10].index && late.id in v.queued[BUCKET20].index;
    assert Owned(v, early.id) && Owned(v, late.id);
    CancelOnly(sig, v, BUCKET10, early);
  }

  lemma Unprotected(sig: string -> Signature, early: Job, late: Job, stranger: string, v: HubView)
    requires Collide(sig, early, late, stranger) && BothWait(sig, early, late, v, 1)
    ensures var w := Emptied(sig, v, BUCKET10, early); w.filter == multiset{} && late in Pending(w)
  {
    var w := Emptied(sig, v, BUCKET10, early);
    assert late in w.queued[BUCKET20].pending;
    LaterMember(w, late);
  }

  /** A cancel of the second job, still queued, is then turned away. */
  lemma CancelSecond(sig: string -> Signature, late: Job, v: HubView) returns (e: Event)
    requires v.filter == multiset{}
    ensures Run(sig, [HubState(v, 1), HubState(v, 1)], [e]) && e == CancelEvent(late.id, None)
  {
    e := CancelEvent(late.id, None);
    OneStep(sig, HubState(v, 1), e, HubState(v, 1));
  }

  lemma ThreeMore(sig: string -> Signature, ss: seq<HubState>, es: seq<Event>, u: HubView, v: HubView, w: HubView,
                  d: Event, e: Event, f: Event)
    returns (ss': seq<HubState>, es': seq<Event>)
    requires RunFromNew(sig, ss, es, 10) && |es| == 2 && Run(sig, [ss[2], HubState(u, 1)], [d])
    requires Run(sig, [HubState(u, 1), HubState(v, 1)], [e]) && Run(sig, [HubState(v, 1), HubState(w, 1)], [f])
    ensures RunFromNew(sig, ss', es', 10) && |es'| == 5
    ensures es'[2] == d && es'[3] == e && es'[4] == f
    ensures ss'[2] == ss[2] && ss'[3] == HubState(u, 1) && ss'[4] == HubState(v, 1)
  {
    ss', es' := Extended(sig, ss, es, d, HubState(u, 1));
    ss', es' := Extended(sig, ss', es', e, HubState(v, 1));
    ss', es' := Extended(sig, ss', es', f, HubState(w, 1));
  }

  /** With both jobs in the hub, the stranger is cancelled, then the first job, then the second one. The first of these
      cancels is falsely positive and does no harm; the second is not, and leaves a false negative; the third answers
      that there is no such job, although it is still queued. */
  lemma TrueCancelUncovers(sig: string -> Signature, early: Job, late: Job, stranger: string)
    returns (ss: seq<HubState>, es: seq<Event>)
    requires Collide(sig, early, late, stranger)
    ensures RunFromNew(sig, ss, es, 10) && |es| == 5
    ensures es[2] == CancelEvent(stranger, None) && es[3] == CancelEvent(early.id, Some(early))
    ensures FalsePositive(sig, ss[2].hub, es[2]) && !Uncovers(sig, ss[2].hub, es[2])
    ensures !FalsePositive(sig, ss[3].hub, es[3]) && Uncovers(sig, ss[3].hub, es[3])
    ensures es[4] == CancelEvent(late.id, None) && late in Pending(ss[4].hub)
  {
    ss, es := TwoAdds(sig, early, late);
    TwoWait(sig, early, late, stranger);
    var u, d := CancelStranger(sig, early, late, stranger, ss[2].hub);
    var v, e := CancelFirst(sig, early, late, stranger, u);
    Unprotected(sig, early, late, stranger, u);
    var f := CancelSecond(sig, late, v);
    ss, es := ThreeMore(sig, ss, es, u, v, v, d, e, f);
  }
}

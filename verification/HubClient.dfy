/** Calling a hub: what is proved of runs of the machine holds of sequences of calls. */
module HubClient {
  import opened Jobs
  import opened HubModel
  import opened HubRuns
  import opened HubFlat
  import opened HubRefinement
  import opened Hubs

  /** A call of the hub, with the clock readings it takes. */
  datatype Call =
    | AddCall(job: Job, now: int)
    | CancelCall(id: string)
    | NextCall(pastNow: int, expiryNow: int, readyNow: int)

  /** The clock after the call. */
  function Tick(c: Call, clock: int): int {
    match c
    case AddCall(_, now) => now
    case CancelCall(_) => clock
    case NextCall(_, _, readyNow) => readyNow
  }

  predicate Timely(c: Call, clock: int) {
    match c
    case AddCall(_, now) => clock <= now
    case CancelCall(_) => true
    case NextCall(pastNow, expiryNow, readyNow) => clock <= pastNow <= expiryNow <= readyNow
  }

  /** The clock after the first i calls. */
  function ClockAt(calls: seq<Call>, i: nat, clock: int): int
    requires i <= |calls|
  {
    if i == 0 then clock else Tick(calls[i - 1], ClockAt(calls, i - 1, clock))
  }

  /** The clock never goes back from call to call. */
  ghost predicate InTime(calls: seq<Call>, clock: int) {
    forall i :: 0 <= i < |calls| ==> Timely(calls[i], ClockAt(calls, i, clock))
  }

  /** The operation is the call together with its answer. */
  predicate Answers(e: Event, c: Call) {
    match c
    case AddCall(j, now) => e.AddEvent? && e.job == j && e.now == now
    case CancelCall(id) => e.CancelEvent? && e.id == id
    case NextCall(pastNow, expiryNow, readyNow) =>
      e.NextEvent? && e.pastNow == pastNow && e.expiryNow == expiryNow && e.readyNow == readyNow
  }

  /** Calls the hub once. */
  method Perform(h: Hub, c: Call) returns (e: Event)
    requires h.Valid()
    modifies h.Repr
    ensures h.Valid() && forall x <- h.Repr :: x in old(h.Repr) || fresh(x)
    ensures HubStep(h.sig, old(h.view), e, h.view) && Answers(e, c)
  {
    match c
    case AddCall(j, now) =>
      var r := h.AddJobLocked(j, now);
      e := AddEvent(j, now, r);
    case CancelCall(id) =>
      var r := h.CancelJobLocked(id);
      e := CancelEvent(id, r);
    case NextCall(pastNow, expiryNow, readyNow) =>
      var r := h.NextLocked(pastNow, expiryNow, readyNow);
      e := NextEvent(pastNow, expiryNow, readyNow, r);
  }

  /** A call that is in time is a step of the machine. */
  lemma CallSteps(sig: string -> Signature, s: HubState, c: Call, e: Event, v: HubView)
    requires Timely(c, s.clock) && Answers(e, c) && HubStep(sig, s.hub, e, v)
    ensures Run(sig, [s, HubState(v, Tick(c, s.clock))], [e])
  {
    OneStep(sig, s, e, HubState(v, Tick(c, s.clock)));
  }

  /** The calls of a run so far. */
  ghost predicate Performed(sig: string -> Signature, calls: seq<Call>, n: nat, clock: int, ss: seq<HubState>,
                            es: seq<Event>, v: HubView, w: HubView)
    requires n <= |calls|
  {
    && Run(sig, ss, es) && |es| == n
    && (forall i :: 0 <= i < n ==> Answers(es[i], calls[i]))
    && ss[0] == HubState(v, clock) && ss[n] == HubState(w, ClockAt(calls, n, clock))
  }

  lemma PerformedNext(sig: string -> Signature, calls: seq<Call>, n: nat, clock: int, ss: seq<HubState>, es: seq<Event>,
                      v: HubView, w: HubView, e: Event, w': HubView)
    returns (ss': seq<HubState>)
    requires n < |calls| && InTime(calls, clock) && Performed(sig, calls, n, clock, ss, es, v, w)
    requires Answers(e, calls[n]) && HubStep(sig, w, e, w')
    ensures Performed(sig, calls, n + 1, clock, ss', es + [e], v, w')
  {
    var s := HubState(w', ClockAt(calls, n + 1, clock));
    assert Timely(calls[n], ClockAt(calls, n, clock));
    CallSteps(sig, ss[n], calls[n], e, w');
    var es';
    ss', es' := Extended(sig, ss, es, e, s);
  }

  /** Calls the hub again and again. The calls and their answers are a run of the machine that leads from what the hub
      was to what it is. */
  method PerformAll(h: Hub, calls: seq<Call>, ghost clock: int) returns (es: seq<Event>, ghost ss: seq<HubState>)
    requires h.Valid() && InTime(calls, clock)
    modifies h.Repr
    ensures h.Valid() && forall x <- h.Repr :: x in old(h.Repr) || fresh(x)
    ensures Performed(h.sig, calls, |calls|, clock, ss, es, old(h.view), h.view)
  {
    ghost var v := h.view;
    es, ss := [], [HubState(v, clock)];
    for i := 0 to |calls|
      invariant h.Valid() && forall x <- h.Repr :: x in old(h.Repr) || fresh(x)
      invariant Performed(h.sig, calls, i, clock, ss, es, v, h.view)
    {
      ghost var w := h.view;
      var e := Perform(h, calls[i]);
      ss := PerformedNext(h.sig, calls, i, clock, ss, es, v, w, e, h.view);
      es := es + [e];
    }
  }

  /** A filter that tells all ids apart. */
  ghost predicate CollisionFree(sig: string -> Signature) {
    forall a, b :: sig(a) == sig(b) ==> a == b
  }

  lemma CollisionFreeCovers(sig: string -> Signature, ss: seq<HubState>, es: seq<Event>, i: nat)
    requires CollisionFree(sig) && i <= |es| <= |ss|
    ensures NoneUncovers(sig, ss, es, i)
  {
  }

  /** The operations of a map from ids to jobs. */
  ghost predicate FlatRun(ms: seq<map<string, Job>>, es: seq<Event>) {
    && |ms| == |es| + 1 && ms[0] == map[]
    && forall i :: 0 <= i < |es| ==> FlatStep(ms[i], es[i], ms[i + 1])
  }

  lemma RunIsFlatRun(sig: string -> Signature, ss: seq<HubState>, es: seq<Event>, span: int)
    returns (ms: seq<map<string, Job>>)
    requires RunFromNew(sig, ss, es, span) && NoneUncovers(sig, ss, es, |es|)
    ensures FlatRun(ms, es) && ms[|es|] == Flat(ss[|es|].hub)
  {
    ms := seq(|ss|, i requires 0 <= i < |ss| => Flat(ss[i].hub));
    NewIsSound(sig, span, ss[0].clock);
    forall i | 0 <= i < |es|
      ensures FlatStep(ms[i], es[i], ms[i + 1])
    {
      RunIsFlat(sig, ss, es, span, i);
    }
  }

  /** Makes a hub and calls it. The calls and their answers are a run from a new hub; what the answers say was taken in
      is what they say was handed out together with what the hub still holds; and if no call leaves a false negative in
      the filter, as is the case if it tells all ids apart, then the answers are those of a map from ids to jobs, empty
      at first, and at last the one that the hub stands for. */
  method PerformFromNew(span: int, now: int, sig: string -> Signature, calls: seq<Call>)
    returns (h: Hub, es: seq<Event>, ghost ss: seq<HubState>, ghost ms: seq<map<string, Job>>)
    requires InTime(calls, now)
    ensures h.Valid() && fresh(h.Repr) && h.sig == sig
    ensures Performed(sig, calls, |calls|, now, ss, es, NewHub(span, now), h.view) && RunFromNew(sig, ss, es, span)
    ensures Gains(es) == Losses(es) + Pending(h.view)
    ensures NoneUncovers(sig, ss, es, |es|) ==> FlatRun(ms, es) && ms[|es|] == Flat(h.view)
    ensures CollisionFree(sig) ==> NoneUncovers(sig, ss, es, |es|)
  {
    h := new Hub(span, now, sig);
    es, ss := PerformAll(h, calls, now);
    Conservation(sig, ss, es, span, |es|);
    assert es[..|es|] == es;
    ms := [];
    if CollisionFree(sig) {
      CollisionFreeCovers(sig, ss, es, |es|);
    }
    if NoneUncovers(sig, ss, es, |es|) {
      ms := RunIsFlatRun(sig, ss, es, span);
    }
  }
}

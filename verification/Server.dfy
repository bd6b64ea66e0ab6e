/** The server in front of the hub, which charges the memory of jobs to the monitor. */
module Server {
  import opened Options
  import opened Jobs
  import opened HubModel
  import opened HubRuns
  import opened HubRestore
  import opened HubRecovery
  import opened Persistence
  import opened Hubs
  import opened HubClient
  import opened Monitor
  import opened Accounting

  /** One request is served at a time. sizeOf is the memory of a job, its fixed overhead included. */
  class GRPCServer {
    const hub: Hub
    const monitor: MemMonitor
    const sizeOf: Job -> uint64

    ghost predicate Valid()
      reads this, hub, hub.Repr, monitor
    {
      hub.Valid() && monitor.Valid() && monitor !in hub.Repr
    }

    constructor (hub: Hub, monitor: MemMonitor, sizeOf: Job -> uint64)
      requires hub.Valid() && monitor.Valid() && monitor !in hub.Repr
      ensures Valid() && this.hub == hub && this.monitor == monitor && this.sizeOf == sizeOf
    {
      this.hub, this.monitor, this.sizeOf := hub, monitor, sizeOf;
    }

    /** Charges the job, and then puts it into the hub. A job that is refused stays charged. */
    method PutWithID(j: Job, now: int) returns (r: AddResult)
      requires Valid()
      modifies hub.Repr, monitor
      ensures Valid() && forall x <- hub.Repr :: x in old(hub.Repr) || fresh(x)
      ensures HubStep(hub.sig, old(hub.view), AddEvent(j, now, r), hub.view)
      ensures (monitor.current, Quiet)
              == Charge(sizeOf, monitor.recoveryWatermark, old(monitor.current), AddEvent(j, now, r))
      ensures monitor.current == Add64(old(monitor.current), sizeOf(j))
    {
      monitor.Increment(sizeOf(j));
      r := hub.AddJobLocked(j, now);
    }

    /** Cancels the job, and takes it off the account if there was one. */
    method Cancel(id: string) returns (r: Option<Job>, outcome: Outcome)
      requires Valid()
      modifies hub.Repr, monitor
      ensures Valid() && hub.Repr == old(hub.Repr)
      ensures HubStep(hub.sig, old(hub.view), CancelEvent(id, r), hub.view)
      ensures (monitor.current, outcome)
              == Charge(sizeOf, monitor.recoveryWatermark, old(monitor.current), CancelEvent(id, r))
      ensures if r.None? then monitor.current == old(monitor.current) && outcome == Quiet else
              (monitor.current, outcome)
              == AfterDecrement(old(monitor.current), sizeOf(r.value), monitor.recoveryWatermark)
    {
      outcome := Quiet;
      r := hub.CancelJobLocked(id);
      if r.Some? {
        outcome := monitor.Decrement(sizeOf(r.value));
      }
    }

    /** One attempt at the next job, which is taken off the account if there is one. */
    method TryNext(pastNow: int, expiryNow: int, readyNow: int) returns (r: Option<Job>, outcome: Outcome)
      requires Valid()
      modifies hub.Repr, monitor
      ensures Valid() && hub.Repr == old(hub.Repr)
      ensures HubStep(hub.sig, old(hub.view), NextEvent(pastNow, expiryNow, readyNow, r), hub.view)
      ensures (monitor.current, outcome)
              == Charge(sizeOf, monitor.recoveryWatermark, old(monitor.current),
                        NextEvent(pastNow, expiryNow, readyNow, r))
      ensures if r.None? then monitor.current == old(monitor.current) && outcome == Quiet else
              (monitor.current, outcome)
              == AfterDecrement(old(monitor.current), sizeOf(r.value), monitor.recoveryWatermark)
    {
      outcome := Quiet;
      r := hub.NextLocked(pastNow, expiryNow, readyNow);
      if r.Some? {
        outcome := monitor.Decrement(sizeOf(r.value));
      }
    }

    /** Serves one request. */
    method Handle(c: Call) returns (e: Event)
      requires Valid()
      modifies hub.Repr, monitor
      ensures Valid() && forall x <- hub.Repr :: x in old(hub.Repr) || fresh(x)
      ensures HubStep(hub.sig, old(hub.view), e, hub.view) && Answers(e, c)
      ensures monitor.current == Charge(sizeOf, monitor.recoveryWatermark, old(monitor.current), e).0
    {
      match c
      case AddCall(j, now) =>
        var r := PutWithID(j, now);
        e := AddEvent(j, now, r);
      case CancelCall(id) =>
        var r, _ := Cancel(id);
        e := CancelEvent(id, r);
      case NextCall(pastNow, expiryNow, readyNow) =>
        var r, _ := TryNext(pastNow, expiryNow, readyNow);
        e := NextEvent(pastNow, expiryNow, readyNow, r);
    }

    /** Serves requests one after the other: the hub goes through a run of the machine, and the account through the
        charges of its operations. */
    method HandleAll(calls: seq<Call>, ghost clock: int)
      returns (es: seq<Event>, ghost ss: seq<HubState>, ghost cs: seq<uint64>)
      requires Valid() && InTime(calls, clock)
      modifies hub.Repr, monitor
      ensures Valid() && forall x <- hub.Repr :: x in old(hub.Repr) || fresh(x)
      ensures Performed(hub.sig, calls, |calls|, clock, ss, es, old(hub.view), hub.view)
      ensures Charged(sizeOf, monitor.recoveryWatermark, old(monitor.current), cs, es) && monitor.current == cs[|es|]
    {
      ghost var v, c0 := hub.view, monitor.current;
      es, ss, cs := [], [HubState(v, clock)], [c0];
      for i := 0 to |calls|
        invariant Valid() && forall x <- hub.Repr :: x in old(hub.Repr) || fresh(x)
        invariant Performed(hub.sig, calls, i, clock, ss, es, v, hub.view)
        invariant Charged(sizeOf, monitor.recoveryWatermark, c0, cs, es) && monitor.current == cs[i]
      {
        ghost var w := hub.view;
        var e := Handle(calls[i]);
        ss := PerformedNext(hub.sig, calls, i, clock, ss, es, v, w, e, hub.view);
        ChargedNext(sizeOf, monitor.recoveryWatermark, c0, cs, es, e, monitor.current);
        es, cs := es + [e], cs + [monitor.current];
      }
    }
  }

  lemma ChargedNext(sizeOf: Job -> uint64, recovery: uint64, c0: uint64, cs: seq<uint64>, es: seq<Event>, e: Event,
                    c: uint64)
    requires Charged(sizeOf, recovery, c0, cs, es) && c == Charge(sizeOf, recovery, cs[|es|], e).0
    ensures Charged(sizeOf, recovery, c0, cs + [c], es + [e])
  {
  }

  /** A server with a new monitor, and a hub restored from records, of which there may be none. Restored jobs are not
      charged. */
  method StartServer(span: int, made: int, sig: string -> Signature, records: seq<Record>, clock: seq<int>,
                     watermark: uint64, sizeOf: Job -> uint64)
    returns (s: GRPCServer)
    requires watermark > 0 && |clock| == |records|
    ensures s.Valid() && fresh(s.hub.Repr) && fresh(s.monitor)
    ensures s.hub.sig == sig && s.sizeOf == sizeOf && s.monitor.watermark == watermark
    ensures s.hub.view == Restored(sig, NewHub(span, made), records, clock).0 && s.monitor.current == 0
  {
    ghost var tally;
    var hub, ok;
    hub, ok, tally := Start(span, made, sig, records, clock);
    var monitor := new MemMonitor(watermark);
    s := new GRPCServer(hub, monitor, sizeOf);
  }

  /** Starts a server and serves requests. As long as what is due is neither negative nor more than a tebibyte, the
      account is what is due: the memory of the jobs that the hub holds and of those that it refused, without that of
      the restored jobs. */
  method Serve(span: int, made: int, sig: string -> Signature, records: seq<Record>, clock: seq<int>,
               watermark: uint64, sizeOf: Job -> uint64, calls: seq<Call>, ghost now: int)
    returns (s: GRPCServer, es: seq<Event>, ghost ss: seq<HubState>)
    requires watermark > 0 && InTime(calls, now) && |clock| == |records|
    ensures s.Valid() && s.monitor.watermark == watermark && RunInOrder(sig, ss, es)
    ensures Performed(sig, calls, |calls|, now, ss, es, Restored(sig, NewHub(span, made), records, clock).0, s.hub.view)
    ensures WithinTebibyte(sizeOf, 0, ss, es, |es|) ==> s.monitor.current == Due(sizeOf, 0, ss, es, |es|)
    ensures records == [] ==> forall k :: 0 <= k <= |es| ==>
              Due(sizeOf, 0, ss, es, k) == Footprint(sizeOf, Pending(ss[k].hub)) + AllRefused(sizeOf, es[..k])
  {
    s := StartServer(span, made, sig, records, clock, watermark, sizeOf);
    ghost var cs;
    es, ss, cs := s.HandleAll(calls, now);
    NewInOrder(span, made);
    RestoredInOrder(sig, NewHub(span, made), records, clock);
    if WithinTebibyte(sizeOf, 0, ss, es, |es|) {
      NeverPanics(sig, ss, es, sizeOf, s.monitor.recoveryWatermark, 0, cs, |es|);
    }
    if records == [] {
      forall k | 0 <= k <= |es|
        ensures Due(sizeOf, 0, ss, es, k) == Footprint(sizeOf, Pending(ss[k].hub)) + AllRefused(sizeOf, es[..k])
      {
        DueWhenNew(sig, span, made, sizeOf, ss, es, k);
      }
    }
  }

  /** Without records, what is due is the memory of the jobs in the hub and of those it refused. */
  lemma DueWhenNew(sig: string -> Signature, span: int, made: int, sizeOf: Job -> uint64, ss: seq<HubState>,
                   es: seq<Event>, i: nat)
    requires ss != [] && ss[0].hub == Restored(sig, NewHub(span, made), [], []).0 && i <= |es| && i < |ss|
    ensures Due(sizeOf, 0, ss, es, i) == Footprint(sizeOf, Pending(ss[i].hub)) + AllRefused(sizeOf, es[..i])
  {
    NewInOrder(span, made);
  }
}

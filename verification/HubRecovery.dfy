/** Stopping one hub and starting another from what it has left behind. */
module HubRecovery {
  import opened Options
  import opened Jobs
  import opened HubModel
  import opened HubFlat
  import opened HubRestore
  import opened Persistence
  import opened Hubs

  method Save(h: Hub) returns (records: seq<Record>, errors: nat, ghost saved: seq<Job>)
    requires h.Valid()
    ensures records == Records(saved) && |records| == |saved| && |saved| + errors == |Pending(h.view)|
    ensures multiset(saved) <= Pending(h.view)
  {
    var p := new Persister();
    ghost var all := Pending(h.view);
    ghost var lists;
    errors, lists := h.PersistLocked(p);
    records, saved := p.records, p.saved;
    SavedAtMost(saved, p.refused, all);
  }

  method Start(span: int, made: int, sig: string -> Signature, records: seq<Record>, clock: seq<int>)
    returns (r: Hub, ok: bool, ghost tally: Tally)
    requires |clock| == |records|
    ensures r.Valid() && fresh(r.Repr) && r.sig == sig
    ensures (r.view, tally) == Restored(sig, NewHub(span, made), records, clock)
    ensures ok <==> tally.errDecode == 0 && tally.errAdd == 0
  {
    r := new Hub(span, made, sig);
    var t;
    ok, t := r.Restore(Some(records), clock);
    tally := t;
  }

  /** Persists hub h, and restores a new hub from the records. Exactly those of the jobs written come back that the new
      hub takes by their triggers. If every job could be written, then both hubs have the same jobs by id if and only if
      every trigger is in the range of Unix nanoseconds and is taken by the new hub at the time of its restoration. */
  method Recover(h: Hub, span: int, made: int, clock: seq<int>)
    returns (r: Hub, errors: nat, ok: bool, ghost js: seq<Job>, ghost tally: Tally)
    requires h.Valid() && Usable(h.sig, h.view) && |clock| == |Pending(h.view)|
    ensures r.Valid() && fresh(r.Repr) && r.sig == h.sig
    ensures multiset(js) <= Pending(h.view) && |js| + errors == |clock|
    ensures BackSoFar(r.sig, span, NewHub(span, made).past.bound, r.view, tally,
                      Taken(span, NewHub(span, made).past.bound, AllCarried(js), clock[..|js|]), |js|)
    ensures ok <==> tally.errAdd == 0
    ensures errors == 0 ==>
              && multiset(js) == Pending(h.view)
              && (Flat(r.view) == Flat(h.view) <==>
                  forall i :: 0 <= i < |js| ==>
                    InUnixRange(js[i].triggerAt) && Takeable(span, NewHub(span, made).past.bound, js[i], clock[i]))
  {
    ghost var v := h.view;
    var records;
    records, errors, js := Save(h);
    r, ok, tally := Start(span, made, h.sig, records, clock[..|records|]);
    SavedComeBack(h.sig, v, js, span, made, clock[..|js|]);
    if errors == 0 {
      AllSaved(js, Pending(v));
      assert clock[..|clock|] == clock;
      RoundTrip(h.sig, v, js, span, made, clock);
    }
  }

  lemma SavedAtMost(saved: seq<Job>, refused: seq<Job>, all: multiset<Job>)
    requires multiset(saved) + multiset(refused) == all
    ensures |Records(saved)| == |saved| && |saved| + |refused| == |all| && multiset(saved) <= all
  {
    assert |multiset(saved) + multiset(refused)| == |saved| + |refused|;
    if saved != [] {
      RecordsAt(saved, 0);
    }
  }

  lemma AllSaved(saved: seq<Job>, all: multiset<Job>)
    requires multiset(saved) <= all && |saved| == |all|
    ensures multiset(saved) == all
  {
    assert |all - multiset(saved)| == 0;
  }
}
